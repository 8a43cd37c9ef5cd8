/** A region heap behaves as a store of independent, non-overlapping objects. */
module RegionStore {
  import opened Common
  import opened RegionSpec

  // ---- what one allocation does ----

  /** The condition under which allocation fails. */
  ghost predicate NoRoom(h: Heap, size: nat)
    requires Sound(h)
  {
    || size > REGION_SIZE
    || (!SomeFree(h) && (h.current.None? || !HasRoom(h.regions[h.current.value], size)))
  }

  /** Where an allocation goes: the current region if it has room, otherwise the first free one. */
  ghost predicate Chosen(h: Heap, size: nat, i: nat)
    requires Sound(h) && i < |h.regions|
  {
    if h.current.Some? && HasRoom(h.regions[h.current.value], size) then h.current == Some(i)
    else h.regions[i].state == Free && forall k :: 0 <= k < i ==> h.regions[k].state != Free
  }

  /** The chosen region grows by the padding and the object and becomes current; the region that was current, if
      another, becomes Full; nothing else changes. */
  ghost predicate Carved(h: Heap, h': Heap, p: Handle, size: nat)
    requires Sound(h)
  {
    && |h'.regions| == |h.regions| && p.region < |h.regions| && Chosen(h, size, p.region)
    && p.offset == AlignUp(h.regions[p.region].offset) && p.offset + size <= REGION_SIZE
    && h'.regions[p.region] == h.regions[p.region].(offset := p.offset + size, state := Allocating)
    && h'.current == Some(p.region)
    && (forall k :: 0 <= k < |h.regions| && k != p.region ==> h'.regions[k] == Closed(h, k))
  }

  /** Region `k`, marked Full if it is the current one. */
  function Closed(h: Heap, k: nat): Region
    requires k < |h.regions|
  {
    if h.current == Some(k) then h.regions[k].(state := Full) else h.regions[k]
  }

  /** A failed request marks the current region Full if it looked there at all. */
  ghost predicate Refused(h: Heap, h': Heap, size: nat) {
    && |h'.regions| == |h.regions| && h'.current == h.current
    && (forall k :: 0 <= k < |h.regions| ==> h'.regions[k] == if size > REGION_SIZE then h.regions[k] else Closed(h, k))
  }

  lemma AllocFromOutcome(h: Heap, size: nat)
    requires Sound(h) && Addressable(h) && size <= REGION_SIZE
    requires forall i :: 0 <= i < |h.regions| ==> h.regions[i].state != Allocating
    ensures var (h', p) := AllocFrom(h, 0, size);
      && (p.None? <==> !SomeFree(h))
      && (p.None? ==> h' == h)
      && (p.Some? ==>
            && p.value.region < |h.regions| && h.regions[p.value.region].state == Free
            && (forall k :: 0 <= k < p.value.region ==> h.regions[k].state != Free)
            && p.value.offset == 0
            && h' == SetRegion(h, p.value.region, h.regions[p.value.region].(offset := size, state := Allocating))
                       .(current := Some(p.value.region)))
  {
    hide AlignUp, AllocFrom;
    AllocFromFirstFree(h, 0, size);
    FirstFreeIsFirst(h, 0);
  }

  /** The current region has room. */
  lemma AllocInCurrent(h: Heap, size: nat)
    requires Sound(h) && Addressable(h) && h.current.Some? && HasRoom(h.regions[h.current.value], size)
    ensures var (h', p) := Alloc(h, size); Sound(h') && p.Some? && Carved(h, h', p.value, size)
  {
    hide AlignUp, AllocFrom;
    RoundsUp(h.regions[h.current.value].offset);
  }

  /** It has none, and is closed before the search. */
  lemma AllocElsewhere(h: Heap, size: nat)
    requires Sound(h) && h.current.Some? && !HasRoom(h.regions[h.current.value], size) && size <= REGION_SIZE
    ensures var i := h.current.value;
      Alloc(h, size) == AllocFrom(SetRegion(h, i, h.regions[i].(state := Full)), 0, size)
  {
    hide AlignUp, AllocFrom;
    RoundsUp(h.regions[h.current.value].offset);
  }

  /** Closing the current region leaves a sound heap that allocates nowhere. */
  lemma ClosingIsSound(h: Heap)
    requires Sound(h) && h.current.Some?
    ensures var i := h.current.value; var h1 := SetRegion(h, i, h.regions[i].(state := Full));
      && Sound(h1) && (SomeFree(h1) <==> SomeFree(h))
      && (forall i :: 0 <= i < |h1.regions| ==> h1.regions[i].state != Allocating)
  {
    var h1 := SetRegion(h, h.current.value, h.regions[h.current.value].(state := Full));
    if SomeFree(h) { var k :| 0 <= k < |h.regions| && h.regions[k].state == Free; assert h1.regions[k].state == Free; }
    if SomeFree(h1) { var k :| 0 <= k < |h1.regions| && h1.regions[k].state == Free; assert h.regions[k].state == Free; }
  }

  lemma AllocFromSound(h: Heap, size: nat)
    requires Sound(h) && size <= REGION_SIZE
    requires forall i :: 0 <= i < |h.regions| ==> h.regions[i].state != Allocating
    ensures Sound(AllocFrom(h, 0, size).0)
  {
    hide AlignUp, AllocFrom;
    AllocFromFirstFree(h, 0, size);
    FirstFreeIsFirst(h, 0);
  }

  lemma AllocInCurrentSound(h: Heap, size: nat)
    requires Sound(h) && h.current.Some? && HasRoom(h.regions[h.current.value], size)
    ensures Sound(Alloc(h, size).0)
  {
    hide AlignUp, AllocFrom;
    RoundsUp(h.regions[h.current.value].offset);
  }

  /** The region state machine survives every allocation, whatever the number of regions. */
  lemma AllocSound(h: Heap, size: nat)
    requires Sound(h)
    ensures Sound(Alloc(h, size).0)
  {
    hide AlignUp, AllocFrom, Alloc;
    if size > REGION_SIZE {
      TooLarge(h, size);
    } else if h.current.None? {
      NoCurrent(h, size);
      AllocFromSound(h, size);
    } else if HasRoom(h.regions[h.current.value], size) {
      AllocInCurrentSound(h, size);
    } else {
      AllocElsewhere(h, size);
      ClosingIsSound(h);
      AllocFromSound(SetRegion(h, h.current.value, h.regions[h.current.value].(state := Full)), size);
    }
  }

  /** Allocation fails exactly when it must: the request exceeds a region, or no region is free and the current one
      is unset or lacks room after rounding up. Either way the heap stays sound. */
  lemma AllocOutcome(h: Heap, size: nat)
    requires Sound(h) && Addressable(h)
    ensures var (h', p) := Alloc(h, size);
      && Sound(h')
      && (p.None? <==> NoRoom(h, size))
      && (p.None? ==> Refused(h, h', size))
      && (p.Some? ==> Carved(h, h', p.value, size))
  {
    hide AlignUp, AllocFrom, Alloc;
    if size > REGION_SIZE {
      TooLarge(h, size);
    } else if h.current.None? {
      NoCurrent(h, size);
      AllocFromOutcome(h, size);
      FreeIsEmpty(h);
    } else if HasRoom(h.regions[h.current.value], size) {
      AllocInCurrent(h, size);
    } else {
      AllocElsewhere(h, size);
      ClosingIsSound(h);
      var h1 := SetRegion(h, h.current.value, h.regions[h.current.value].(state := Full));
      AllocFromOutcome(h1, size);
      FreeIsEmpty(h);
      var (h', p) := AllocFrom(h1, 0, size);
      forall k | 0 <= k < |h.regions| ensures h1.regions[k] == Closed(h, k) {}
      if p.Some? {
        forall k | 0 <= k < p.value.region ensures h.regions[k].state != Free { assert h1.regions[k].state != Free; }
      }
    }
  }

  lemma TooLarge(h: Heap, size: nat)
    requires size > REGION_SIZE
    ensures Alloc(h, size) == (h, None)
  {
  }

  lemma NoCurrent(h: Heap, size: nat)
    requires size <= REGION_SIZE && h.current.None?
    ensures Alloc(h, size) == AllocFrom(h, 0, size)
  {
  }

  lemma FreeIsEmpty(h: Heap)
    requires Sound(h)
    ensures AlignUp(0) == 0
    ensures forall i :: 0 <= i < |h.regions| && h.regions[i].state == Free ==> h.regions[i].offset == 0
  {
    RoundsUp(0);
  }

  /** "Full" does not mean closed until the next sweep: a region marked Full by a request it could not hold takes the
      next, smaller one, as long as it stays current and no region is free. */
  lemma FullStillAllocates()
    ensures var h0 := Heap([EMPTY], None);
      var (h1, p1) := Alloc(h0, 20000);
      var (h2, p2) := Alloc(h1, 20000);
      var (h3, p3) := Alloc(h2, 8);
      && p1 == Some(Handle(0, 0)) && p2 == None && p3 == Some(Handle(0, 20000))
      && h2.regions == [EMPTY.(offset := 20000, state := Full)]
      && h3.regions == [EMPTY.(offset := 20008, state := Allocating)]
  {
    hide Alloc, AlignUp;
    RoundsUp(0);
    RoundsUp(20000);
    var h0 := Heap([EMPTY], None);
    assert h0.regions[0].state == Free;
    AllocOutcome(h0, 20000);
    var h1 := Alloc(h0, 20000).0;
    AllocOutcome(h1, 20000);
    var h2 := Alloc(h1, 20000).0;
    AllocOutcome(h2, 8);
  }

  /** The search for room looks at the current region and at free ones only: a region closed by a request it could not
      hold, and no longer current, has room for the next one, which fails all the same. */
  lemma RoomIsNotEnough()
    ensures var h0 := Heap([EMPTY, EMPTY], None);
      var (h1, p1) := Alloc(h0, 20000);
      var (h2, p2) := Alloc(h1, 20000);
      var (h3, p3) := Alloc(h2, 12768);
      var (h4, p4) := Alloc(h3, 8);
      && p1 == Some(Handle(0, 0)) && p2 == Some(Handle(1, 0)) && p3 == Some(Handle(1, 20000)) && p4 == None
      && |h3.regions| == 2 && HasRoom(h3.regions[0], 8) && h3.regions[0] == EMPTY.(offset := 20000, state := Full)
  {
    hide Alloc, AlignUp;
    RoundsUp(0);
    RoundsUp(20000);
    RoundsUp(32768);
    var h0 := Heap([EMPTY, EMPTY], None);
    assert h0.regions[0].state == Free;
    AllocOutcome(h0, 20000);
    var h1 := Alloc(h0, 20000).0;
    assert h1.regions[1].state == Free;
    AllocOutcome(h1, 20000);
    var h2 := Alloc(h1, 20000).0;
    AllocOutcome(h2, 12768);
    var h3 := Alloc(h2, 12768).0;
    AllocOutcome(h3, 8);
  }

  // ---- the objects in a heap ----

  /** An object in use: where it is, and the bytes its owner expects there. */
  datatype Obj = Obj(region: nat, offset: nat, content: seq<Byte>)

  function HandleOf(o: Obj): Handle {
    MakeHandle(o.region, o.offset)
  }

  datatype World = World(heap: Heap, objs: seq<Obj>)

  /** The end of the latest object in region `i`. */
  function Bump(objs: seq<Obj>, i: nat): nat {
    if objs == [] then 0
    else
      var o := objs[|objs| - 1];
      if o.region == i then o.offset + |o.content| else Bump(objs[..|objs| - 1], i)
  }

  /** Every object starts at the first multiple of 8 after the one issued before it in its region. */
  ghost predicate LaidOut(objs: seq<Obj>) {
    objs == [] ||
    var (before, o) := (objs[..|objs| - 1], objs[|objs| - 1]);
    LaidOut(before) && o.offset == AlignUp(Bump(before, o.region))
  }

  /** Object `o` lies inside the used part of a region in use, which holds its bytes. */
  ghost predicate Holds(h: Heap, o: Obj) {
    && o.region < |h.regions| && h.regions[o.region].state != Free
    && o.offset + |o.content| <= h.regions[o.region].offset
    && |h.regions[o.region].bytes| == REGION_SIZE && h.regions[o.region].offset <= REGION_SIZE
    && h.regions[o.region].bytes[o.offset..o.offset + |o.content|] == o.content
  }

  ghost predicate Pointers(w: World) {
    forall i :: 0 <= i < |w.heap.regions| ==> w.heap.regions[i].offset == Bump(w.objs, i)
  }

  /** The invariant of every run: a sound heap whose bump pointers and bytes are those of its objects. */
  ghost predicate Store(w: World) {
    && Sound(w.heap) && Addressable(w.heap)
    && LaidOut(w.objs)
    && Pointers(w)
    && (forall o :: o in w.objs ==> Holds(w.heap, o))
  }

  // ---- runs ----

  /** `k` numbers an object in use. */
  datatype Op = Request(size: nat) | Update(k: nat, data: seq<Byte>) | ResetCounts | Keep(k: nat) | Reclaim

  /** An owner writes no more bytes than the object has, and uses objects that have not been swept away. */
  ghost predicate Legal(w: World, op: Op) {
    match op
    case Update(k, data) => k < |w.objs| && |data| <= |w.objs[k].content|
    case Keep(k) => k < |w.objs|
    case _ => true
  }

  /** The objects whose region survives a sweep of `h`. */
  function Survivors(h: Heap, objs: seq<Obj>): seq<Obj> {
    if objs == [] then []
    else
      var (before, o) := (objs[..|objs| - 1], objs[|objs| - 1]);
      if o.region < |h.regions| && Dead(h.regions[o.region]) then Survivors(h, before) else Survivors(h, before) + [o]
  }

  function Issued(h: Heap, p: Handle, size: nat): Obj
    requires p.region < |h.regions| && p.offset + size <= |h.regions[p.region].bytes|
  {
    Obj(p.region, p.offset, Read(h, p, size))
  }

  ghost function Requested(w: World, size: nat): World
    requires Sound(w.heap) && Addressable(w.heap)
  {
    AllocOutcome(w.heap, size);
    var (h, p) := Alloc(w.heap, size);
    World(h, if p.Some? then w.objs + [Issued(h, p.value, size)] else w.objs)
  }

  ghost function Updated(w: World, k: nat, data: seq<Byte>): World
    requires Sound(w.heap) && Addressable(w.heap) && k < |w.objs| && Holds(w.heap, w.objs[k]) && |data| <= |w.objs[k].content|
  {
    var o := w.objs[k];
    World(Write(w.heap, HandleOf(o), data), w.objs[k := o.(content := data + o.content[|data|..])])
  }

  ghost function Step(w: World, op: Op): World
    requires Store(w) && Legal(w, op)
  {
    match op
    case Request(size) => Requested(w, size)
    case Update(k, data) => Updated(w, k, data)
    case ResetCounts => w.(heap := PreMark(w.heap))
    case Keep(k) =>
      assert Holds(w.heap, w.objs[k]);
      w.(heap := MarkLive(w.heap, HandleOf(w.objs[k])))
    case Reclaim => World(Sweep(w.heap), Survivors(w.heap, w.objs))
  }

  // ---- objects do not overlap ----

  ghost predicate Disjoint(o: Obj, q: Obj) {
    o.region != q.region || o.offset + |o.content| <= q.offset || q.offset + |q.content| <= o.offset
  }

  ghost predicate Fits(objs: seq<Obj>) {
    forall o :: o in objs ==> o.offset + |o.content| <= REGION_SIZE
  }

  lemma {:induction false} EndsBelowBump(objs: seq<Obj>, j: nat)
    requires LaidOut(objs) && Fits(objs) && j < |objs|
    ensures objs[j].offset + |objs[j].content| <= Bump(objs, objs[j].region)
  {
    hide AlignUp;
    var n := |objs| - 1;
    if j < n {
      EndsBelowBump(objs[..n], j);
      BumpFits(objs[..n], objs[n].region);
      RoundsUp(Bump(objs[..n], objs[n].region));
    }
  }

  lemma {:induction false} BumpFits(objs: seq<Obj>, i: nat)
    requires Fits(objs)
    ensures Bump(objs, i) <= REGION_SIZE
  {
    if objs != [] { BumpFits(objs[..|objs| - 1], i); }
  }

  /** The earlier of two objects in one region ends before the later one begins. */
  lemma {:induction false} Apart(objs: seq<Obj>, j: nat, k: nat)
    requires LaidOut(objs) && Fits(objs) && j < k < |objs| && objs[j].region == objs[k].region
    ensures objs[j].offset + |objs[j].content| <= objs[k].offset
  {
    hide AlignUp;
    var n := |objs| - 1;
    if k == n {
      EndsBelowBump(objs[..n], j);
      BumpFits(objs[..n], objs[n].region);
      RoundsUp(Bump(objs[..n], objs[n].region));
    } else {
      Apart(objs[..n], j, k);
    }
  }

  lemma {:induction false} Aligned(objs: seq<Obj>, k: nat)
    requires LaidOut(objs) && Fits(objs) && k < |objs|
    ensures objs[k].offset % ALIGN == 0
  {
    hide AlignUp;
    var n := |objs| - 1;
    if k == n {
      BumpFits(objs[..n], objs[n].region);
      RoundsUp(Bump(objs[..n], objs[n].region));
    } else {
      Aligned(objs[..n], k);
    }
  }

  // ---- every operation keeps the invariant ----

  lemma StoreFits(w: World)
    requires Store(w)
    ensures Fits(w.objs)
  {
  }

  /** An allocation leaves the objects in use where and as they are. */
  lemma CarvedHolds(h: Heap, h': Heap, p: Handle, size: nat, o: Obj)
    requires Sound(h) && Addressable(h) && Carved(h, h', p, size) && Holds(h, o)
    ensures Holds(h', o)
  {
    hide AlignUp, Chosen;
    RoundsUp(h.regions[p.region].offset);
  }

  lemma Appended(objs: seq<Obj>, o: Obj, i: nat)
    ensures Bump(objs + [o], i) == if o.region == i then o.offset + |o.content| else Bump(objs, i)
    ensures LaidOut(objs) && o.offset == AlignUp(Bump(objs, o.region)) ==> LaidOut(objs + [o])
  {
    hide AlignUp;
    assert (objs + [o])[..|objs|] == objs;
  }

  lemma CarvedPointers(h: Heap, h': Heap, p: Handle, size: nat, objs: seq<Obj>, o: Obj)
    requires Sound(h) && Addressable(h) && Carved(h, h', p, size) && Pointers(World(h, objs)) && LaidOut(objs)
    requires o.region == p.region && o.offset == p.offset && |o.content| == size
    ensures Pointers(World(h', objs + [o])) && LaidOut(objs + [o])
  {
    hide AlignUp, Chosen, Bump, LaidOut;
    Appended(objs, o, p.region);
    forall i | 0 <= i < |h'.regions| ensures h'.regions[i].offset == Bump(objs + [o], i) { Appended(objs, o, i); }
  }

  /** An allocation, granted or not, keeps the invariant and every object in use, with its bytes; a granted one adds
      one object of the size asked for, which starts where the handle says. */
  lemma RequestKeeps(w: World, size: nat)
    requires Store(w)
    ensures var w' := Step(w, Request(size)); var p := Alloc(w.heap, size).1;
      && Store(w') && w.objs <= w'.objs && (forall o :: o in w.objs ==> Holds(w'.heap, o))
      && |w'.objs| == |w.objs| + (if p.Some? then 1 else 0)
      && (p.Some? ==> var o := w'.objs[|w.objs|]; HandleOf(o) == p.value && |o.content| == size)
  {
    hide AlignUp, Alloc, NoRoom, Chosen, Bump, LaidOut, Sound, Pointers;
    AllocOutcome(w.heap, size);
    var (h, p) := Alloc(w.heap, size);
    if p.Some? {
      hide Carved;
      var o := IssuedHolds(w.heap, h, p.value, size);
      CarvedPointers(w.heap, h, p.value, size, w.objs, o);
      forall q | q in w.objs ensures Holds(h, q) { CarvedHolds(w.heap, h, p.value, size, q); }
    } else {
      hide Refused;
      RefusedKeeps(w, h, size);
    }
  }

  lemma IssuedHolds(h: Heap, h': Heap, p: Handle, size: nat) returns (o: Obj)
    requires Sound(h) && Sound(h') && Carved(h, h', p, size)
    ensures p.region < |h'.regions| && p.offset + size <= |h'.regions[p.region].bytes|
    ensures o == Issued(h', p, size) && Holds(h', o)
    ensures o.region == p.region && o.offset == p.offset && |o.content| == size
  {
    hide AlignUp, Chosen;
    o := Issued(h', p, size);
  }

  lemma RefusedKeeps(w: World, h: Heap, size: nat)
    requires Store(w) && Sound(h) && Refused(w.heap, h, size)
    ensures Store(w.(heap := h))
  {
    hide AlignUp, Bump, LaidOut;
    forall q | q in w.objs ensures Holds(h, q) { assert Holds(w.heap, q); }
  }

  ghost predicate SameShape(objs: seq<Obj>, objs': seq<Obj>) {
    && |objs'| == |objs|
    && (forall k :: 0 <= k < |objs| ==>
          objs'[k].region == objs[k].region && objs'[k].offset == objs[k].offset && |objs'[k].content| == |objs[k].content|)
  }

  lemma {:induction false} ShapeKeepsBump(objs: seq<Obj>, objs': seq<Obj>, i: nat)
    requires SameShape(objs, objs')
    ensures Bump(objs', i) == Bump(objs, i)
  {
    if objs != [] { ShapeKeepsBump(objs[..|objs| - 1], objs'[..|objs| - 1], i); }
  }

  lemma {:induction false} ShapeKeepsLayout(objs: seq<Obj>, objs': seq<Obj>)
    requires SameShape(objs, objs') && LaidOut(objs)
    ensures LaidOut(objs')
  {
    if objs != [] {
      ShapeKeepsLayout(objs[..|objs| - 1], objs'[..|objs| - 1]);
      ShapeKeepsBump(objs[..|objs| - 1], objs'[..|objs| - 1], objs[|objs| - 1].region);
    }
  }

  /** A write within one object changes that object's bytes as it should. */
  lemma WriteIsRead(h: Heap, o: Obj, data: seq<Byte>)
    requires Sound(h) && Addressable(h) && Holds(h, o) && |data| <= |o.content|
    ensures Holds(Write(h, HandleOf(o), data), o.(content := data + o.content[|data|..]))
  {
    hide Patched;
    PatchedRange(h.regions[o.region].bytes, o.offset, |o.content|, data);
  }

  /** It changes no byte of an object that does not overlap it. */
  lemma WriteIsLocal(h: Heap, o: Obj, data: seq<Byte>, q: Obj)
    requires Sound(h) && Addressable(h) && Holds(h, o) && Holds(h, q) && |data| <= |o.content| && Disjoint(o, q)
    ensures Holds(Write(h, HandleOf(o), data), q)
  {
    hide Patched;
    if q.region == o.region {
      PatchedElsewhere(h.regions[o.region].bytes, o.offset, data, q.offset, |q.content|, |o.content|);
    }
  }

  lemma PatchedRange(bytes: seq<Byte>, start: nat, len: nat, data: seq<Byte>)
    requires |data| <= len && start + len <= |bytes|
    ensures Patched(bytes, start, data)[start..start + len] == data + bytes[start..start + len][|data|..]
  {
  }

  lemma PatchedElsewhere(bytes: seq<Byte>, start: nat, data: seq<Byte>, at: nat, n: nat, len: nat)
    requires |data| <= len && start + len <= |bytes| && at + n <= |bytes| && (at + n <= start || start + len <= at)
    ensures Patched(bytes, start, data)[at..at + n] == bytes[at..at + n]
  {
  }

  /** A write leaves everything but bytes. */
  lemma WriteShape(h: Heap, o: Obj, data: seq<Byte>)
    requires Sound(h) && Addressable(h) && Holds(h, o) && |data| <= |o.content|
    ensures Sound(Write(h, HandleOf(o), data))
    ensures |Write(h, HandleOf(o), data).regions| == |h.regions|
    ensures forall i :: 0 <= i < |h.regions| ==> Write(h, HandleOf(o), data).regions[i].offset == h.regions[i].offset
  {
  }

  lemma UpdateKeeps(w: World, k: nat, data: seq<Byte>)
    requires Store(w) && Legal(w, Update(k, data))
    ensures Store(Step(w, Update(k, data)))
  {
    hide AlignUp, LaidOut, Bump, Write;
    var w' := Step(w, Update(k, data));
    var o := w.objs[k];
    assert Holds(w.heap, o);
    StoreFits(w);
    WriteShape(w.heap, o, data);
    ShapeKeepsLayout(w.objs, w'.objs);
    forall i | 0 <= i < |w'.heap.regions| ensures w'.heap.regions[i].offset == Bump(w'.objs, i) {
      ShapeKeepsBump(w.objs, w'.objs, i);
    }
    WriteIsRead(w.heap, o, data);
    forall j | 0 <= j < |w'.objs| && j != k ensures Holds(w'.heap, w'.objs[j]) {
      if w.objs[j].region == o.region { if j < k { Apart(w.objs, j, k); } else { Apart(w.objs, k, j); } }
      assert Holds(w.heap, w.objs[j]);
      WriteIsLocal(w.heap, o, data, w.objs[j]);
    }
  }

  lemma CountsKeep(w: World, h: Heap)
    requires Store(w) && |h.regions| == |w.heap.regions| && h.current == w.heap.current
    requires forall i :: 0 <= i < |h.regions| ==> h.regions[i] == w.heap.regions[i].(liveCount := h.regions[i].liveCount)
    ensures Store(w.(heap := h))
  {
    hide AlignUp, LaidOut, Bump;
    forall o | o in w.objs ensures Holds(h, o) { assert Holds(w.heap, o); }
  }

  ghost predicate InDead(h: Heap, i: nat) {
    i < |h.regions| && Dead(h.regions[i])
  }

  /** A sweep keeps the objects of the other regions. */
  lemma {:induction false} SurvivorsAre(h: Heap, objs: seq<Obj>)
    ensures forall o :: o in Survivors(h, objs) <==> o in objs && !InDead(h, o.region)
  {
    hide Dead;
    if objs != [] {
      var (before, o) := (objs[..|objs| - 1], objs[|objs| - 1]);
      SurvivorsAre(h, before);
      assert objs == before + [o];
    }
  }

  /** The bump pointer of a region swept away goes back to its start; the others stay. */
  lemma {:induction false} SurvivorsBump(h: Heap, objs: seq<Obj>, i: nat)
    ensures Bump(Survivors(h, objs), i) == if InDead(h, i) then 0 else Bump(objs, i)
  {
    hide Dead;
    if objs != [] {
      var (before, o) := (objs[..|objs| - 1], objs[|objs| - 1]);
      SurvivorsBump(h, before, i);
      if !InDead(h, o.region) { Appended(Survivors(h, before), o, i); }
    }
  }

  /** Sweeping away whole regions leaves the layout of the others. */
  lemma {:induction false} SurvivorsLaidOut(h: Heap, objs: seq<Obj>)
    requires LaidOut(objs)
    ensures LaidOut(Survivors(h, objs))
  {
    hide AlignUp, Dead, Bump;
    if objs != [] {
      var (before, o) := (objs[..|objs| - 1], objs[|objs| - 1]);
      SurvivorsLaidOut(h, before);
      SurvivorsBump(h, before, o.region);
      if !InDead(h, o.region) { Appended(Survivors(h, before), o, o.region); }
    }
  }

  lemma SweepSound(h: Heap)
    requires Sound(h)
    ensures Sound(Sweep(h))
  {
  }

  /** A sweep keeps the invariant and exactly the objects in regions that were not dead, with their bytes. */
  lemma ReclaimKeeps(w: World)
    requires Store(w)
    ensures var w' := Step(w, Reclaim);
      && Store(w') && (forall o :: o in w'.objs <==> o in w.objs && !InDead(w.heap, o.region))
      && (forall o :: o in w'.objs ==> Holds(w'.heap, o))
  {
    hide AlignUp, LaidOut, Bump, Survivors, Sound;
    SweepSound(w.heap);
    SurvivorsLaidOut(w.heap, w.objs);
    SurvivorsAre(w.heap, w.objs);
    var w' := Step(w, Reclaim);
    forall i | 0 <= i < |w'.heap.regions| ensures w'.heap.regions[i].offset == Bump(w'.objs, i) {
      SurvivorsBump(w.heap, w.objs, i);
    }
    forall o | o in w'.objs ensures Holds(w'.heap, o) { assert Holds(w.heap, o); }
  }

  lemma StepKeeps(w: World, op: Op)
    requires Store(w) && Legal(w, op)
    ensures Store(Step(w, op))
  {
    hide AlignUp, LaidOut, Bump, Alloc, Sweep, Survivors, Sound;
    match op
    case Request(size) => RequestKeeps(w, size);
    case Update(k, data) => UpdateKeeps(w, k, data);
    case ResetCounts => CountsKeep(w, PreMark(w.heap));
    case Keep(k) =>
      assert Holds(w.heap, w.objs[k]);
      CountsKeep(w, MarkLive(w.heap, HandleOf(w.objs[k])));
    case Reclaim => ReclaimKeeps(w);
  }

  ghost predicate LegalRun(w: World, ops: seq<Op>)
    requires Store(w)
    decreases |ops|
  {
    ops == [] || (Legal(w, ops[0]) && (StepKeeps(w, ops[0]); LegalRun(Step(w, ops[0]), ops[1..])))
  }

  ghost function Run(w: World, ops: seq<Op>): (w': World)
    requires Store(w) && LegalRun(w, ops)
    ensures Store(w')
    decreases |ops|
  {
    if ops == [] then w
    else
      StepKeeps(w, ops[0]);
      Run(Step(w, ops[0]), ops[1..])
  }

  ghost function NewWorld(n: nat): (w: World)
    requires n <= 0x1_0000_0000
    ensures Store(w)
  {
    NewSound(n);
    World(Heap(seq(n, _ => EMPTY), None), [])
  }

  /** Over every run: the region state machine is kept; each object in use has an 8-aligned handle inside its region,
      below the bump pointer; a read through it returns the bytes last written to it; and no two objects share a
      byte. */
  lemma RunSeparates(n: nat, ops: seq<Op>)
    requires n <= 0x1_0000_0000 && LegalRun(NewWorld(n), ops)
    ensures var w := Run(NewWorld(n), ops);
      && Sound(w.heap)
      && (forall o :: o in w.objs ==>
            && HandleOf(o) == Handle(o.region, o.offset) && o.offset % ALIGN == 0
            && Holds(w.heap, o) && Read(w.heap, HandleOf(o), |o.content|) == o.content)
      && (forall j, k :: 0 <= j < k < |w.objs| ==> Disjoint(w.objs[j], w.objs[k]))
  {
    hide AlignUp, LaidOut, Bump, NewWorld, Run, LegalRun;
    var w := Run(NewWorld(n), ops);
    StoreSeparates(w);
  }

  lemma StoreSeparates(w: World)
    requires Store(w)
    ensures forall o :: o in w.objs ==>
              && HandleOf(o) == Handle(o.region, o.offset) && o.offset % ALIGN == 0
              && Holds(w.heap, o) && Read(w.heap, HandleOf(o), |o.content|) == o.content
    ensures forall j, k :: 0 <= j < k < |w.objs| ==> Disjoint(w.objs[j], w.objs[k])
  {
    hide AlignUp, LaidOut, Bump;
    StoreFits(w);
    forall o | o in w.objs
      ensures HandleOf(o) == Handle(o.region, o.offset) && o.offset % ALIGN == 0
      ensures Holds(w.heap, o) && Read(w.heap, HandleOf(o), |o.content|) == o.content
    {
      var k :| 0 <= k < |w.objs| && w.objs[k] == o;
      Aligned(w.objs, k);
      assert Holds(w.heap, o);
    }
    forall j, k | 0 <= j < k < |w.objs| ensures Disjoint(w.objs[j], w.objs[k]) {
      if w.objs[j].region == w.objs[k].region { Apart(w.objs, j, k); }
    }
  }

  /** Nothing in the step is meant for `o`: it is not written, and no sweep finds its region dead. */
  ghost predicate Spared(w: World, op: Op, o: Obj) {
    && (op.Update? ==> op.k < |w.objs| && w.objs[op.k] != o)
    && (op.Reclaim? ==> !InDead(w.heap, o.region))
  }

  ghost predicate SparedRun(w: World, ops: seq<Op>, o: Obj)
    requires Store(w) && LegalRun(w, ops)
    decreases |ops|
  {
    ops == [] || (Spared(w, ops[0], o) && (StepKeeps(w, ops[0]); SparedRun(Step(w, ops[0]), ops[1..], o)))
  }

  /** Whatever else is allocated, written, marked and swept, an object keeps its place and its bytes until it is written
      itself or a sweep finds its region dead, and it overlaps none of the objects allocated meanwhile. */
  lemma {:induction false} Undisturbed(w: World, ops: seq<Op>, o: Obj)
    requires Store(w) && LegalRun(w, ops) && o in w.objs && SparedRun(w, ops, o)
    ensures o in Run(w, ops).objs
    ensures Holds(Run(w, ops).heap, o)
    ensures forall q :: q in Run(w, ops).objs && q != o ==> Disjoint(o, q)
    decreases |ops|
  {
    hide AlignUp, LaidOut, Bump, Alloc, Sweep, Sound;
    if ops == [] {
      Alone(w, o);
    } else {
      StepKeeps(w, ops[0]);
      StepSpares(w, ops[0], o);
      Undisturbed(Step(w, ops[0]), ops[1..], o);
    }
  }

  lemma Alone(w: World, o: Obj)
    requires Store(w) && o in w.objs
    ensures forall q :: q in w.objs && q != o ==> Disjoint(o, q)
  {
    hide AlignUp, LaidOut, Bump, Pointers;
    StoreSeparates(w);
    var j :| 0 <= j < |w.objs| && w.objs[j] == o;
    forall q | q in w.objs && q != o ensures Disjoint(o, q) {
      var k :| 0 <= k < |w.objs| && w.objs[k] == q;
      assert if j < k then Disjoint(w.objs[j], w.objs[k]) else Disjoint(w.objs[k], w.objs[j]);
    }
  }

  lemma StepSpares(w: World, op: Op, o: Obj)
    requires Store(w) && Legal(w, op) && o in w.objs && Spared(w, op, o)
    ensures o in Step(w, op).objs
  {
    hide AlignUp, LaidOut, Bump, Alloc, Sweep, Sound, Survivors;
    if op.Reclaim? { SurvivorsAre(w.heap, w.objs); }
    if op.Update? {
      var j :| 0 <= j < |w.objs| && w.objs[j] == o;
      assert Step(w, op).objs[j] == o;
    }
  }
}

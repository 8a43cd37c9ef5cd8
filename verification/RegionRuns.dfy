/** What runs of a region heap do to live counts and bytes, and the heap's fixed sizes, with their numbers. */
module RegionRuns {
  import opened Common
  import opened RegionSpec
  import opened RegionStore

  // ---- sizes ----

  /** A new region holds 32768 zero bytes. */
  lemma NewRegion()
    ensures |EMPTY.bytes| == 32768 && forall b :: 0 <= b < 32768 ==> EMPTY.bytes[b] == 0
    ensures EMPTY.offset == 0 && EMPTY.state == Free && EMPTY.liveCount == 0
  {
  }

  /** No heap grants more than 32768 bytes at once, and a new one grants any size up to that, at the start of region 0. */
  lemma LargestRequest(h: Heap, n: nat, size: nat)
    requires 0 < n
    ensures size > 32768 ==> Alloc(h, size) == (h, None)
    ensures size <= 32768 ==> Alloc(Heap(seq(n, _ => EMPTY), None), size).1 == Some(Handle(0, 0))
  {
    hide Alloc, AllocFrom;
    if size > 32768 {
      TooLarge(h, size);
    } else {
      var new_ := Heap(seq(n, _ => EMPTY), None);
      NoCurrent(new_, size);
      FreeTakes(EMPTY, size);
      AllocFromStep(new_, 0, size);
    }
  }

  /** Bump allocation in one region: granted exactly when the object ends by byte 32768; refused without effect when its
      end is no machine word, and otherwise with the region marked Full. */
  lemma TryAllocExactly(r: Region, size: nat)
    requires r.offset <= 32768
    ensures var at := (r.offset + 7) / 8 * 8;
      TryAlloc(r, size) ==
        if at + size <= 32768 then (Region(r.bytes, at + size, Allocating, r.liveCount), Some(at))
        else if at + size <= 0xFFFF_FFFF_FFFF_FFFF then (Region(r.bytes, r.offset, Full, r.liveCount), None)
        else (r, None)
  {
    hide AlignUp;
    RoundsUp(r.offset);
  }

  /** What a run may contain: any request, count reset and sweep at any time, and updates and counts of objects in use, as
      long as an update stays within its object. */
  lemma RunsMayContain(w: World, size: nat, k: nat, data: seq<Byte>)
    ensures Legal(w, Request(size)) && Legal(w, ResetCounts) && Legal(w, Reclaim)
    ensures Legal(w, Keep(k)) <==> k < |w.objs|
    ensures Legal(w, Update(k, data)) <==> k < |w.objs| && |data| <= |w.objs[k].content|
  {
  }

  // ---- sweeping and counting ----

  /** A sweep makes each region in use without a live object free, empty and uncounted, and leaves its bytes; it unsets
      the current region exactly when it frees it. */
  lemma SweepWrittenOut(h: Heap)
    ensures |Sweep(h).regions| == |h.regions|
    ensures forall i :: 0 <= i < |h.regions| ==>
      Sweep(h).regions[i] == if h.regions[i].state != Free && h.regions[i].liveCount == 0
                             then Region(h.regions[i].bytes, 0, Free, 0) else h.regions[i]
    ensures (forall i :: h.current == Some(i) && i < |h.regions| && h.regions[i].state != Free && h.regions[i].liveCount == 0
               ==> Sweep(h).current == None)
    ensures (forall i :: h.current == Some(i) && i < |h.regions| && (h.regions[i].state == Free || h.regions[i].liveCount > 0)
               ==> Sweep(h).current == Some(i))
    ensures h.current == None ==> Sweep(h).current == None
  {
  }

  /** Counting and writing move no bump pointer, change no state and leave the current region current; counting leaves
      every byte, writing every count. */
  lemma OthersUntouched(h: Heap, p: Handle, data: seq<Byte>)
    requires p.region < |h.regions| && p.offset + |data| <= |h.regions[p.region].bytes|
    ensures forall h' :: h' in [PreMark(h), MarkLive(h, p), Write(h, p, data)] ==>
      h'.current == h.current && |h'.regions| == |h.regions|
      && (forall i :: 0 <= i < |h.regions| ==>
            h'.regions[i].offset == h.regions[i].offset && h'.regions[i].state == h.regions[i].state)
    ensures forall i :: 0 <= i < |h.regions| ==>
      && PreMark(h).regions[i].bytes == h.regions[i].bytes && PreMark(h).regions[i].liveCount == 0
      && MarkLive(h, p).regions[i].bytes == h.regions[i].bytes
      && MarkLive(h, p).regions[i].liveCount ==
           (if i == p.region then (h.regions[i].liveCount + 1) % 0x1_0000_0000 else h.regions[i].liveCount)
      && Write(h, p, data).regions[i].liveCount == h.regions[i].liveCount
  {
  }

  ghost predicate FreeUncounted(h: Heap) {
    forall i :: 0 <= i < |h.regions| && h.regions[i].state == Free ==> h.regions[i].liveCount == 0
  }

  lemma RequestKeepsCounts(w: World, size: nat)
    requires Store(w)
    ensures var h := Step(w, Request(size)).heap;
      && |h.regions| == |w.heap.regions|
      && (forall i :: 0 <= i < |h.regions| ==> h.regions[i].liveCount == w.heap.regions[i].liveCount)
      && (forall i :: 0 <= i < |h.regions| ==> h.regions[i].bytes == w.heap.regions[i].bytes)
      && (forall i :: 0 <= i < |h.regions| && h.regions[i].state == Free ==> w.heap.regions[i].state == Free)
  {
    hide AlignUp, Alloc, Chosen, NoRoom, LaidOut, Bump;
    AllocOutcome(w.heap, size);
    var (h, p) := Alloc(w.heap, size);
    assert Step(w, Request(size)).heap == h;
    if p.Some? { assert Carved(w.heap, h, p.value, size); } else { assert Refused(w.heap, h, size); }
  }

  lemma StepFreeUncounted(w: World, op: Op)
    requires Store(w) && Legal(w, op) && FreeUncounted(w.heap)
    ensures FreeUncounted(Step(w, op).heap)
  {
    hide AlignUp, Alloc, LaidOut, Bump, Survivors, Sound;
    match op
    case Request(size) => RequestKeepsCounts(w, size);
    case Update(k, data) => WriteKeepsCounts(w, k, data);
    case ResetCounts =>
    case Keep(k) => assert Holds(w.heap, w.objs[k]);
    case Reclaim => SweepWrittenOut(w.heap);
  }

  lemma WriteKeepsCounts(w: World, k: nat, data: seq<Byte>)
    requires Store(w) && Legal(w, Update(k, data))
    ensures var h := Step(w, Update(k, data)).heap;
      && |h.regions| == |w.heap.regions|
      && forall i :: 0 <= i < |h.regions| ==>
           h.regions[i].liveCount == w.heap.regions[i].liveCount && h.regions[i].state == w.heap.regions[i].state
  {
    hide Patched, LaidOut, Bump;
    assert Holds(w.heap, w.objs[k]);
  }

  /** Over every run a free region has live count 0. */
  lemma {:induction false} RunFreeUncounted(w: World, ops: seq<Op>)
    requires Store(w) && LegalRun(w, ops) && FreeUncounted(w.heap)
    ensures FreeUncounted(Run(w, ops).heap)
    decreases |ops|
  {
    hide Step, Store, FreeUncounted, Legal;
    if ops != [] {
      StepKeeps(w, ops[0]);
      StepFreeUncounted(w, ops[0]);
      RunFreeUncounted(Step(w, ops[0]), ops[1..]);
    }
  }

  /** No live object of region `i` is counted in the run. */
  ghost predicate Uncounted(w: World, ops: seq<Op>, i: nat)
    requires Store(w) && LegalRun(w, ops)
    decreases |ops|
  {
    ops == [] ||
    ((ops[0].Keep? ==> ops[0].k < |w.objs| && w.objs[ops[0].k].region != i) &&
     (StepKeeps(w, ops[0]); Uncounted(Step(w, ops[0]), ops[1..], i)))
  }

  lemma StepUncounted(w: World, op: Op, i: nat)
    requires Store(w) && Legal(w, op) && i < |w.heap.regions| && w.heap.regions[i].liveCount == 0
    requires op.Keep? ==> w.objs[op.k].region != i
    ensures i < |Step(w, op).heap.regions| && Step(w, op).heap.regions[i].liveCount == 0
  {
    hide AlignUp, Alloc, LaidOut, Bump, Survivors, Sound;
    match op
    case Request(size) => RequestKeepsCounts(w, size);
    case Update(k, data) => WriteKeepsCounts(w, k, data);
    case ResetCounts =>
    case Keep(k) => assert Holds(w.heap, w.objs[k]);
    case Reclaim => SweepWrittenOut(w.heap);
  }

  lemma {:induction false} RunUncounted(w: World, ops: seq<Op>, i: nat)
    requires Store(w) && LegalRun(w, ops) && i < |w.heap.regions| && w.heap.regions[i].liveCount == 0
    requires Uncounted(w, ops, i)
    ensures i < |Run(w, ops).heap.regions| && Run(w, ops).heap.regions[i].liveCount == 0
    decreases |ops|
  {
    hide Step, Store, Legal;
    if ops != [] {
      StepKeeps(w, ops[0]);
      LegalNames(w, ops[0]);
      StepUncounted(w, ops[0], i);
      RunUncounted(Step(w, ops[0]), ops[1..], i);
    }
  }

  lemma LegalNames(w: World, op: Op)
    requires Legal(w, op)
    ensures op.Keep? ==> op.k < |w.objs|
  {
  }

  /** Whatever has been allocated and written in region `i` since it was last free: if none of it was counted as live, the
      next sweep makes the region free, empty and uncounted again. */
  lemma UncountedIsReclaimed(w: World, ops: seq<Op>, i: nat)
    requires Store(w) && FreeUncounted(w.heap) && LegalRun(w, ops)
    requires i < |w.heap.regions| && w.heap.regions[i].state == Free && Uncounted(w, ops, i)
    ensures var h := Run(w, ops).heap;
      && i < |h.regions|
      && (h.regions[i].state != Free ==> Dead(h.regions[i]))
      && Sweep(h).regions[i] == Region(h.regions[i].bytes, 0, Free, 0)
  {
    hide Store, LegalRun, Uncounted, Run;
    RunUncounted(w, ops, i);
    RunFreeUncounted(w, ops);
    RunKeepsSound(w, ops);
    SweepWrittenOut(Run(w, ops).heap);
  }

  lemma RunKeepsSound(w: World, ops: seq<Op>)
    requires Store(w) && LegalRun(w, ops)
    ensures Sound(Run(w, ops).heap)
  {
    hide Run, LegalRun;
    assert Store(Run(w, ops));
  }

  /** A region can be used and reclaimed again and again. */
  lemma AllocSweepTwice()
    ensures var h1 := Alloc(Heap([EMPTY], None), 8).0;
      var h2 := Sweep(h1);
      var h3 := Alloc(h2, 8).0;
      var h4 := Sweep(h3);
      && CountDead(h1.regions) == 1 && h2 == Heap([EMPTY], None)
      && CountDead(h3.regions) == 1 && h4 == Heap([EMPTY], None)
  {
    hide Alloc, AlignUp;
    RoundsUp(0);
    var h0 := Heap([EMPTY], None);
    assert h0.regions[0].state == Free;
    AllocOutcome(h0, 8);
    var h1 := Alloc(h0, 8).0;
    assert h1.regions == [Region(EMPTY.bytes, 8, Allocating, 0)];
    assert h1.regions[..0] == [];
    assert CountDead(h1.regions) == 1;
    assert Sweep(h1).regions == [EMPTY];
  }

  // ---- bytes never written ----

  /** The operation writes byte `b` of region `i`. */
  ghost predicate Touches(w: World, op: Op, i: nat, b: nat) {
    op.Update? && op.k < |w.objs| && w.objs[op.k].region == i
    && w.objs[op.k].offset <= b < w.objs[op.k].offset + |op.data|
  }

  ghost predicate UntouchedRun(w: World, ops: seq<Op>, i: nat, b: nat)
    requires Store(w) && LegalRun(w, ops)
    decreases |ops|
  {
    ops == [] ||
    (!Touches(w, ops[0], i, b) && (StepKeeps(w, ops[0]); UntouchedRun(Step(w, ops[0]), ops[1..], i, b)))
  }

  /** Byte `b` of region `i`. */
  ghost function ByteAt(h: Heap, i: nat, b: nat): Byte
    requires Sound(h) && i < |h.regions| && b < REGION_SIZE
  {
    h.regions[i].bytes[b]
  }

  lemma UpdateUntouched(w: World, k: nat, data: seq<Byte>, i: nat, b: nat)
    requires Store(w) && Legal(w, Update(k, data)) && i < |w.heap.regions| && b < REGION_SIZE
    requires !Touches(w, Update(k, data), i, b) && Sound(Step(w, Update(k, data)).heap)
    ensures i < |Step(w, Update(k, data)).heap.regions|
    ensures ByteAt(Step(w, Update(k, data)).heap, i, b) == ByteAt(w.heap, i, b)
  {
    hide AlignUp, LaidOut, Bump;
    assert Holds(w.heap, w.objs[k]);
  }

  lemma StepUntouched(w: World, op: Op, i: nat, b: nat)
    requires Store(w) && Legal(w, op) && i < |w.heap.regions| && b < REGION_SIZE && !Touches(w, op, i, b)
    ensures Store(Step(w, op)) && i < |Step(w, op).heap.regions|
    ensures ByteAt(Step(w, op).heap, i, b) == ByteAt(w.heap, i, b)
  {
    hide AlignUp, Alloc, LaidOut, Bump, Survivors, Patched;
    StepKeeps(w, op);
    match op
    case Request(size) => RequestKeepsCounts(w, size);
    case Update(k, data) => UpdateUntouched(w, k, data, i, b);
    case Keep(k) => assert Holds(w.heap, w.objs[k]);
    case _ =>
  }

  lemma {:induction false} RunUntouched(w: World, ops: seq<Op>, i: nat, b: nat)
    requires Store(w) && LegalRun(w, ops) && i < |w.heap.regions| && b < REGION_SIZE && UntouchedRun(w, ops, i, b)
    ensures Sound(Run(w, ops).heap) && i < |Run(w, ops).heap.regions|
    ensures ByteAt(Run(w, ops).heap, i, b) == ByteAt(w.heap, i, b)
    decreases |ops|
  {
    StoreSound(w);
    hide Step, Store, Legal, Touches, ByteAt, Sound;
    if ops != [] {
      StepKeeps(w, ops[0]);
      StepUntouched(w, ops[0], i, b);
      RunUntouched(Step(w, ops[0]), ops[1..], i, b);
    }
  }

  lemma StoreSound(w: World)
    requires Store(w)
    ensures Sound(w.heap)
  {
  }

  /** A byte nobody has written since the heap was made reads 0, whatever was allocated and swept over it. */
  lemma UntouchedReadsZero(n: nat, ops: seq<Op>, i: nat, b: nat)
    requires n <= 0x1_0000_0000 && i < n && b < 32768
    requires LegalRun(NewWorld(n), ops) && UntouchedRun(NewWorld(n), ops, i, b)
    ensures var h := Run(NewWorld(n), ops).heap;
      i < |h.regions| && b < |h.regions[i].bytes| && h.regions[i].bytes[b] == 0
  {
    hide Run, LegalRun, UntouchedRun;
    RunUntouched(NewWorld(n), ops, i, b);
    NewRegion();
  }
}

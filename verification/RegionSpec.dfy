/** The mark-region heap on values: what each operation computes. */
module RegionSpec {
  import opened Common

  const ALIGN: nat := 8
  const REGION_SIZE: nat := 32 * 1024
  const USIZE_BITS: nat := 64
  const USIZE_MAX: nat := 0xFFFF_FFFF_FFFF_FFFF

  type Byte = x: int | 0 <= x < 256

  datatype RegionState = Free | Allocating | Full
  datatype Region = Region(bytes: seq<Byte>, offset: nat, state: RegionState, liveCount: U32)
  datatype Handle = Handle(region: U32, offset: U32)
  datatype Heap = Heap(regions: seq<Region>, current: Option<nat>)

  // ---- bit arithmetic of the round-up ----

  /** Bitwise and of the lowest `w` bits. */
  function And(w: nat, a: nat, b: nat): nat {
    if w == 0 then 0 else (a % 2) * (b % 2) + 2 * And(w - 1, a / 2, b / 2)
  }

  function Ones(w: nat): nat {
    if w == 0 then 0 else 1 + 2 * Ones(w - 1)
  }

  /** Bitwise complement in `w` bits. */
  function Not(w: nat, a: nat): nat
    requires a <= Ones(w)
  {
    Ones(w) - a
  }

  /** The bump pointer rounded up with a mask, as the code does it. */
  function AlignUp(offset: nat): nat {
    SixtyFourOnes();
    And(USIZE_BITS, offset + (ALIGN - 1), Not(USIZE_BITS, ALIGN - 1))
  }

  lemma SixtyFourOnes()
    ensures Ones(USIZE_BITS) == USIZE_MAX
  {
    hide Ones;
    assert Ones(1) == 1 by { OneOne(); }
    OnesAdd(1, 1); assert Ones(2) == 3;
    OnesAdd(2, 2); assert Ones(4) == 15;
    OnesAdd(4, 4); assert Ones(8) == 255;
    OnesAdd(8, 8); assert Ones(16) == 0xFFFF;
    OnesAdd(16, 16); assert Ones(32) == 0xFFFF_FFFF;
    OnesAdd(32, 32);
  }

  lemma OneOne()
    ensures Ones(1) == 1
  {
  }

  /** Shifting ones left by `b` and filling with ones. */
  lemma {:induction false} OnesAdd(a: nat, b: nat)
    ensures Ones(a + b) == Ones(a) * (Ones(b) + 1) + Ones(b)
  {
    if b > 0 {
      OnesAdd(a, b - 1);
      Doubled(Ones(a), Ones(b - 1));
    }
  }

  lemma Doubled(x: nat, y: nat)
    ensures 1 + 2 * (x * (y + 1) + y) == x * (1 + 2 * y + 1) + (1 + 2 * y)
  {
    assert x * (1 + 2 * y + 1) == x * (2 * (y + 1)) == 2 * (x * (y + 1));
  }

  lemma {:induction false} AndOnes(w: nat, a: nat)
    requires a <= Ones(w)
    ensures And(w, a, Ones(w)) == a
  {
    if w > 0 {
      AndOnes(w - 1, a / 2);
      assert Ones(w) % 2 == 1 && Ones(w) / 2 == Ones(w - 1);
    }
  }

  /** Masking the lowest bit away. */
  lemma AndEven(w: nat, a: nat, b: nat)
    requires w > 0
    ensures And(w, a, 2 * b) == 2 * And(w - 1, a / 2, b)
  {
    assert (2 * b) % 2 == 0 && (2 * b) / 2 == b;
    assert And(w, a, 2 * b) == (a % 2) * ((2 * b) % 2) + 2 * And(w - 1, a / 2, (2 * b) / 2);
  }

  /** The mask round-up is the arithmetic one: the least multiple of 8 that is not below `offset`. */
  lemma RoundsUp(offset: nat)
    requires offset + 7 <= USIZE_MAX
    ensures AlignUp(offset) == (offset + 7) / 8 * 8
    ensures AlignUp(offset) % ALIGN == 0 && offset <= AlignUp(offset) < offset + ALIGN
  {
    hide And, Ones;
    SixtyFourOnes();
    OnesAdd(61, 3);
    OneOne(); OnesAdd(1, 1); OnesAdd(1, 2);
    assert Ones(3) == 7;
    var a := offset + 7;
    assert Not(64, 7) == 2 * (2 * (2 * Ones(61)));
    AndEven(64, a, 2 * (2 * Ones(61)));
    AndEven(63, a / 2, 2 * Ones(61));
    AndEven(62, a / 2 / 2, Ones(61));
    AndOnes(61, a / 2 / 2 / 2);
  }

  // ---- one region ----

  const EMPTY: Region := Region(seq(REGION_SIZE, _ => 0), 0, Free, 0)

  /** Bump allocation. A request whose end does not fit a machine word fails without any effect; one that does not
      fit the region marks it Full. */
  function TryAlloc(r: Region, size: nat): (Region, Option<nat>) {
    var aligned := AlignUp(r.offset);
    if aligned + size > USIZE_MAX then (r, None)
    else if aligned + size > REGION_SIZE then (r.(state := Full), None)
    else (r.(offset := aligned + size, state := Allocating), Some(aligned))
  }

  function Reset(r: Region): Region {
    r.(offset := 0, state := Free, liveCount := 0)
  }

  // ---- the heap ----

  function MakeHandle(region: nat, offset: nat): Handle {
    Handle(region % 0x1_0000_0000, offset % 0x1_0000_0000)
  }

  function SetRegion(h: Heap, i: nat, r: Region): Heap
    requires i < |h.regions|
  {
    h.(regions := h.regions[i := r])
  }

  /** The search for a free region, from region `i` on. */
  function AllocFrom(h: Heap, i: nat, size: nat): (Heap, Option<Handle>)
    requires i <= |h.regions|
    decreases |h.regions| - i
  {
    if i == |h.regions| then (h, None)
    else if h.regions[i].state == Free then
      var (r, at) := TryAlloc(h.regions[i], size);
      if at.Some? then (SetRegion(h, i, r).(current := Some(i)), Some(MakeHandle(i, at.value)))
      else AllocFrom(SetRegion(h, i, r), i + 1, size)
    else AllocFrom(h, i + 1, size)
  }

  lemma AllocFromStep(h: Heap, i: nat, size: nat)
    requires i < |h.regions|
    ensures AllocFrom(h, i, size) ==
      if h.regions[i].state == Free then
        var (r, at) := TryAlloc(h.regions[i], size);
        if at.Some? then (SetRegion(h, i, r).(current := Some(i)), Some(MakeHandle(i, at.value)))
        else AllocFrom(SetRegion(h, i, r), i + 1, size)
      else AllocFrom(h, i + 1, size)
  {
  }

  lemma AllocFromEnd(h: Heap, size: nat)
    ensures AllocFrom(h, |h.regions|, size) == (h, None)
  {
  }

  function Alloc(h: Heap, size: nat): (Heap, Option<Handle>) {
    if size > REGION_SIZE then (h, None)
    else if h.current.Some? && h.current.value < |h.regions| then
      var i := h.current.value;
      var (r, at) := TryAlloc(h.regions[i], size);
      if at.Some? then (SetRegion(h, i, r), Some(MakeHandle(i, at.value)))
      else AllocFrom(SetRegion(h, i, r), 0, size)
    else AllocFrom(h, 0, size)
  }

  function Read(h: Heap, p: Handle, len: nat): seq<Byte>
    requires p.region < |h.regions| && p.offset + len <= |h.regions[p.region].bytes|
  {
    h.regions[p.region].bytes[p.offset..p.offset + len]
  }

  function Patched(bytes: seq<Byte>, start: nat, data: seq<Byte>): (r: seq<Byte>)
    requires start + |data| <= |bytes|
    ensures |r| == |bytes|
  {
    bytes[..start] + data + bytes[start + |data|..]
  }

  function Write(h: Heap, p: Handle, data: seq<Byte>): Heap
    requires p.region < |h.regions| && p.offset + |data| <= |h.regions[p.region].bytes|
  {
    var r := h.regions[p.region];
    SetRegion(h, p.region, r.(bytes := Patched(r.bytes, p.offset, data)))
  }

  function PreMark(h: Heap): Heap {
    h.(regions := seq(|h.regions|, i requires 0 <= i < |h.regions| => h.regions[i].(liveCount := 0)))
  }

  /** The count is a 32-bit word, so the model lets it wrap around. */
  function MarkLive(h: Heap, p: Handle): Heap
    requires p.region < |h.regions|
  {
    var r := h.regions[p.region];
    SetRegion(h, p.region, r.(liveCount := (r.liveCount + 1) % 0x1_0000_0000))
  }

  predicate Dead(r: Region) {
    r.state != Free && r.liveCount == 0
  }

  function Sweep(h: Heap): Heap {
    Heap(seq(|h.regions|, i requires 0 <= i < |h.regions| => if Dead(h.regions[i]) then Reset(h.regions[i]) else h.regions[i]),
         if h.current.Some? && h.current.value < |h.regions| && Dead(h.regions[h.current.value]) then None else h.current)
  }

  /** Sweeping region `i`. */
  function SweptOne(h: Heap, i: nat): Heap
    requires i < |h.regions|
  {
    if Dead(h.regions[i]) then Heap(h.regions[i := Reset(h.regions[i])], if h.current == Some(i) then None else h.current)
    else h
  }

  function CountFree(regions: seq<Region>): nat {
    if regions == [] then 0
    else CountFree(regions[..|regions| - 1]) + (if regions[|regions| - 1].state == Free then 1 else 0)
  }

  function CountDead(regions: seq<Region>): nat {
    if regions == [] then 0
    else CountDead(regions[..|regions| - 1]) + (if Dead(regions[|regions| - 1]) then 1 else 0)
  }

  /** Sweep raises the number of free regions by exactly the number of dead ones. */
  lemma {:induction false} SweepFreesDead(regions: seq<Region>, swept: seq<Region>)
    requires |swept| == |regions|
    requires forall i :: 0 <= i < |regions| ==> swept[i] == if Dead(regions[i]) then Reset(regions[i]) else regions[i]
    ensures CountFree(swept) == CountFree(regions) + CountDead(regions)
  {
    if regions != [] {
      var n := |regions| - 1;
      assert swept[..n] == swept[..n] && regions[..n] == regions[..n];
      SweepFreesDead(regions[..n], swept[..n]);
    }
  }

  /** The sweep has passed the first `i` regions of `h` and freed `freed` of them. */
  ghost predicate PartlySwept(h: Heap, h': Heap, i: nat, freed: nat) {
    && |h'.regions| == |h.regions| && i <= |h.regions|
    && (forall k :: 0 <= k < |h.regions| ==>
          h'.regions[k] == if k < i && Dead(h.regions[k]) then Reset(h.regions[k]) else h.regions[k])
    && h'.current == (if h.current.Some? && h.current.value < i && Dead(h.regions[h.current.value]) then None else h.current)
    && freed == CountDead(h.regions[..i])
  }

  lemma NothingSwept(h: Heap)
    ensures PartlySwept(h, h, 0, 0)
  {
  }

  lemma SweptOneMore(h: Heap, h': Heap, i: nat, freed: nat)
    requires PartlySwept(h, h', i, freed) && i < |h.regions|
    ensures h'.regions[i] == h.regions[i]
    ensures PartlySwept(h, SweptOne(h', i), i + 1, freed + if Dead(h'.regions[i]) then 1 else 0)
  {
    assert h.regions[..i + 1][..i] == h.regions[..i];
  }

  /** The loop over all regions is the sweep, and it raises the number of free regions by what it freed. */
  lemma AllSwept(h: Heap, h': Heap, freed: nat)
    requires PartlySwept(h, h', |h.regions|, freed)
    ensures h' == Sweep(h) && freed == CountDead(h.regions)
    ensures CountFree(h'.regions) == CountFree(h.regions) + freed
  {
    assert h.regions[..|h.regions|] == h.regions;
    SweepFreesDead(h.regions, h'.regions);
  }

  /** Each region has a handle of its own. */
  predicate Addressable(h: Heap) {
    |h.regions| <= 0x1_0000_0000
  }

  /** Exactly the heaps of at most 2^32 regions do: the handle cuts the region index to 32 bits. */
  lemma HandlesTellRegions(h: Heap)
    ensures Addressable(h) <==>
      forall i: nat, j: nat :: i < j < |h.regions| ==> MakeHandle(i, 0) != MakeHandle(j, 0)
  {
    if !Addressable(h) { assert MakeHandle(0, 0) == MakeHandle(0x1_0000_0000, 0); }
  }

  // ---- the region state machine ----

  /** What every heap built by these operations satisfies. */
  ghost predicate Sound(h: Heap) {
    && (forall i :: 0 <= i < |h.regions| ==>
          && |h.regions[i].bytes| == REGION_SIZE && h.regions[i].offset <= REGION_SIZE
          && (h.regions[i].state == Free ==> h.regions[i].offset == 0))
    && (h.current.Some? ==> h.current.value < |h.regions| && h.regions[h.current.value].state != Free)
    && (forall i :: 0 <= i < |h.regions| && h.regions[i].state == Allocating ==> h.current == Some(i))
  }

  lemma NewSound(n: nat)
    ensures Sound(Heap(seq(n, _ => EMPTY), None)) && CountFree(seq(n, _ => EMPTY)) == n
  {
    AllFree(seq(n, _ => EMPTY));
  }

  lemma {:induction false} AllFree(regions: seq<Region>)
    requires forall i :: 0 <= i < |regions| ==> regions[i].state == Free
    ensures CountFree(regions) == |regions|
  {
    if regions != [] { AllFree(regions[..|regions| - 1]); }
  }

  /** A free region takes every request of at most its size, at offset 0. */
  lemma FreeTakes(r: Region, size: nat)
    requires r.state == Free && r.offset == 0 && size <= REGION_SIZE
    ensures TryAlloc(r, size) == (r.(offset := size, state := Allocating), Some(0))
  {
    RoundsUp(0);
  }

  /** The room left in a region, after rounding up. */
  predicate HasRoom(r: Region, size: nat) {
    AlignUp(r.offset) + size <= REGION_SIZE
  }

  predicate SomeFree(h: Heap) {
    exists i :: 0 <= i < |h.regions| && h.regions[i].state == Free
  }

  function FirstFree(h: Heap, i: nat): (f: nat)
    requires i <= |h.regions|
    ensures i <= f <= |h.regions|
    decreases |h.regions| - i
  {
    if i == |h.regions| || h.regions[i].state == Free then i else FirstFree(h, i + 1)
  }

  lemma {:induction false} FirstFreeIsFirst(h: Heap, i: nat)
    requires i <= |h.regions|
    ensures FirstFree(h, i) < |h.regions| ==> h.regions[FirstFree(h, i)].state == Free
    ensures forall k :: i <= k < FirstFree(h, i) ==> h.regions[k].state != Free
    decreases |h.regions| - i
  {
    if i < |h.regions| && h.regions[i].state != Free { FirstFreeIsFirst(h, i + 1); }
  }

  /** The search ends in the first free region, if there is one. */
  lemma {:induction false} AllocFromFirstFree(h: Heap, i: nat, size: nat)
    requires i <= |h.regions| && size <= REGION_SIZE
    requires forall k :: 0 <= k < |h.regions| && h.regions[k].state == Free ==> h.regions[k].offset == 0
    ensures var f := FirstFree(h, i);
      AllocFrom(h, i, size) ==
        if f == |h.regions| then (h, None)
        else (SetRegion(h, f, h.regions[f].(offset := size, state := Allocating)).(current := Some(f)), Some(MakeHandle(f, 0)))
    decreases |h.regions| - i
  {
    if i < |h.regions| {
      if h.regions[i].state == Free { FreeTakes(h.regions[i], size); }
      else { AllocFromFirstFree(h, i + 1, size); }
    }
  }
}

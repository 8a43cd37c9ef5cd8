/** The mark-region heap as it runs: regions and byte arrays updated in place. */
module RegionHeap {
  import opened Common
  import S = RegionSpec
  import RegionStore

  type Byte = S.Byte

  class Region {
    const bytes: array<Byte>
    var offset: nat
    var state: S.RegionState
    var liveCount: U32

    ghost function View(): S.Region
      reads this, bytes
    {
      S.Region(bytes[..], offset, state, liveCount)
    }

    constructor ()
      ensures fresh(bytes) && View() == S.EMPTY
    {
      bytes := new Byte[S.REGION_SIZE](_ => 0);
      offset, state, liveCount := 0, S.Free, 0;
    }

    method TryAlloc(size: nat) returns (at: Option<nat>)
      requires offset <= S.REGION_SIZE
      modifies this`offset, this`state
      ensures (View(), at) == S.TryAlloc(old(View()), size)
    {
      S.RoundsUp(offset);
      var aligned := S.AlignUp(offset);
      if aligned + size > S.USIZE_MAX { return None; }
      var end := aligned + size;
      if end > S.REGION_SIZE {
        state := S.Full;
        return None;
      }
      offset := end;
      state := S.Allocating;
      return Some(aligned);
    }

    method Reset()
      modifies this`offset, this`state, this`liveCount
      ensures View() == S.Region(old(bytes[..]), 0, S.Free, 0)
    {
      offset, state, liveCount := 0, S.Free, 0;
    }
  }

  /** `n` empty regions. */
  method NewRegions(n: nat) returns (regions: seq<Region>)
    ensures |regions| == n && Separate(regions)
    ensures forall r :: r in regions ==> fresh(r) && fresh(r.bytes) && r.View() == S.EMPTY
  {
    regions := [];
    for i := 0 to n
      invariant |regions| == i && Separate(regions)
      invariant forall r :: r in regions ==> fresh(r) && fresh(r.bytes) && r.View() == S.EMPTY
    {
      var r := new Region();
      regions := regions + [r];
    }
  }

  /** Distinct regions with distinct byte arrays. */
  ghost predicate Separate(regions: seq<Region>) {
    forall i, j :: 0 <= i < j < |regions| ==> regions[i] != regions[j] && regions[i].bytes != regions[j].bytes
  }

  ghost predicate AllWithin(h: S.Heap) {
    forall i :: 0 <= i < |h.regions| ==> h.regions[i].offset <= S.REGION_SIZE
  }

  lemma StaysWithin(r: S.Region, size: nat)
    requires r.offset <= S.REGION_SIZE
    ensures S.TryAlloc(r, size).0.offset <= S.REGION_SIZE
  {
  }

  class RegionHeap {
    const regions: seq<Region>
    var current: Option<nat>

    ghost function Parts(): (p: set<object>)
      ensures forall r :: r in regions ==> r in p && r.bytes in p
    {
      (set r: Region | r in regions :: r as object) + (set r: Region | r in regions :: r.bytes as object)
    }

    ghost function View(): (h: S.Heap)
      reads this, Parts()
      ensures |h.regions| == |regions| && h.current == current
      ensures forall i :: 0 <= i < |regions| ==> h.regions[i] == regions[i].View()
    {
      S.Heap(seq(|regions|, i requires 0 <= i < |regions| reads this, Parts() => regions[i].View()), current)
    }

    ghost predicate Valid()
      reads this, Parts()
    {
      Separate(regions) && S.Sound(View())
    }

    constructor WithRegions(n: nat)
      ensures Valid() && fresh(Parts())
      ensures View() == S.Heap(seq(n, _ => S.EMPTY), None) && S.CountFree(View().regions) == n
    {
      var rs := NewRegions(n);
      regions := rs;
      current := None;
      new;
      S.NewSound(n);
      assert View().regions == seq(n, _ => S.EMPTY);
    }

    method NFree() returns (n: nat)
      requires Valid()
      ensures n == S.CountFree(View().regions)
    {
      n := 0;
      ghost var rs := View().regions;
      for i := 0 to |regions|
        invariant n == S.CountFree(rs[..i])
      {
        assert rs[..i + 1][..i] == rs[..i];
        if regions[i].state == S.Free { n := n + 1; }
      }
      assert rs[..|regions|] == rs;
    }

    method Alloc(size: nat) returns (p: Option<S.Handle>)
      requires Valid()
      modifies this`current, Parts()
      ensures Valid()
      ensures (View(), p) == S.Alloc(old(View()), size)
    {
      RegionStore.AllocSound(View(), size);
      if size > S.REGION_SIZE { return None; }
      if current.Some? {
        var idx := current.value;
        var at := TryAllocIn(idx, size);
        if at.Some? { return Some(S.MakeHandle(idx, at.value)); }
      }
      p := Search(size);
    }

    /** Bump allocation in region `i`. */
    method TryAllocIn(i: nat, size: nat) returns (at: Option<nat>)
      requires Separate(regions) && i < |regions| && regions[i].offset <= S.REGION_SIZE
      modifies regions[i]
      ensures var (r, a) := S.TryAlloc(old(View()).regions[i], size); View() == S.SetRegion(old(View()), i, r) && at == a
    {
      at := regions[i].TryAlloc(size);
      assert View().regions == S.SetRegion(old(View()), i, regions[i].View()).regions;
    }

    /** The first free region that takes the request. */
    method Search(size: nat) returns (p: Option<S.Handle>)
      requires Separate(regions) && AllWithin(View())
      modifies this`current, Parts()
      ensures (View(), p) == S.AllocFrom(old(View()), 0, size)
    {
      hide S.AllocFrom, S.TryAlloc;
      ghost var before := View();
      for i := 0 to |regions|
        invariant S.AllocFrom(View(), i, size) == S.AllocFrom(before, 0, size)
        invariant AllWithin(View())
      {
        S.AllocFromStep(View(), i, size);
        if regions[i].state == S.Free {
          StaysWithin(View().regions[i], size);
          var at := TryAllocIn(i, size);
          if at.Some? {
            ghost var carved := View();
            current := Some(i);
            assert View().regions == carved.regions;
            return Some(S.MakeHandle(i, at.value));
          }
        }
      }
      S.AllocFromEnd(View(), size);
      p := None;
    }

    method Read(p: S.Handle, len: nat) returns (data: seq<Byte>)
      requires Valid() && p.region < |regions| && p.offset + len <= S.REGION_SIZE
      ensures data == S.Read(View(), p, len)
    {
      data := regions[p.region].bytes[p.offset..p.offset + len];
    }

    method Write(p: S.Handle, data: seq<Byte>)
      requires Valid() && p.region < |regions| && p.offset + |data| <= S.REGION_SIZE
      modifies Parts()
      ensures Valid() && View() == S.Write(old(View()), p, data)
    {
      var bytes := regions[p.region].bytes;
      forall j | 0 <= j < |data| { bytes[p.offset + j] := data[j]; }
      assert bytes[..] == S.Patched(old(bytes[..]), p.offset, data);
      assert View().regions == S.Write(old(View()), p, data).regions;
    }

    method PreMark()
      requires Valid()
      modifies Parts()
      ensures Valid() && View() == S.PreMark(old(View()))
    {
      ghost var before := View();
      for i := 0 to |regions|
        invariant current == old(current) && Separate(regions)
        invariant forall k :: 0 <= k < |regions| ==>
          regions[k].View() == if k < i then before.regions[k].(liveCount := 0) else before.regions[k]
      {
        regions[i].liveCount := 0;
      }
      assert View().regions == S.PreMark(before).regions;
    }

    method MarkLive(p: S.Handle)
      requires Valid() && p.region < |regions|
      modifies Parts()
      ensures Valid() && View() == S.MarkLive(old(View()), p)
    {
      var r := regions[p.region];
      r.liveCount := (r.liveCount + 1) % 0x1_0000_0000;
      assert View().regions == S.MarkLive(old(View()), p).regions;
    }

    method Sweep() returns (freed: nat)
      requires Valid()
      modifies this`current, Parts()
      ensures Valid() && View() == S.Sweep(old(View()))
      ensures freed == S.CountDead(old(View()).regions)
      ensures S.CountFree(View().regions) == S.CountFree(old(View()).regions) + freed
    {
      hide S.Sweep, S.SweptOne, S.PartlySwept, S.Sound, S.CountDead, S.CountFree;
      ghost var before := View();
      S.NothingSwept(before);
      freed := 0;
      for i := 0 to |regions|
        invariant S.PartlySwept(before, View(), i, freed)
      {
        S.SweptOneMore(before, View(), i, freed);
        var dead := SweepAt(i);
        if dead { freed := freed + 1; }
      }
      S.AllSwept(before, View(), freed);
      RegionStore.SweepSound(before);
    }

    /** Region `i` is reset if it is in use and no live object was counted in it. */
    method SweepAt(i: nat) returns (dead: bool)
      requires Separate(regions) && i < |regions|
      modifies this`current, regions[i]
      ensures View() == S.SweptOne(old(View()), i)
      ensures dead == S.Dead(old(View()).regions[i])
    {
      dead := regions[i].state != S.Free && regions[i].liveCount == 0;
      if dead {
        regions[i].Reset();
        if current == Some(i) { current := None; }
      }
      assert View().regions == S.SweptOne(old(View()), i).regions;
    }
  }
}

/** The stack as an object. One thread executes its methods while the others, stopped wherever they are in their own
    operations, wait. The fields are the program's; every statement is one step of the machine of HazardStack, so the
    object is always in a state some run of that machine ends in. */
module SafeTreiber {
  import opened Common
  import opened HazardStack
  import opened HazardInvariant
  import opened HazardLinear
  import opened HazardRegistry
  import HazardSafety
  import HazardReclaim
  import HazardSlots

  /** Everything proved of the states of a run. */
  ghost predicate Good(s: State) {
    Inv(s) && LogInv(s) && HazardSafety.FreedOnce(s) && HazardReclaim.GarbageInv(s) && HazardSlots.UseIsHeld(s)
  }

  lemma RunIsGood(threads: nat, turns: seq<Turn>)
    requires Legal(Init(threads), turns)
    ensures Good(Exec(Init(threads), turns))
  {
    hide Inv, LogInv, HazardSafety.FreedOnce, HazardReclaim.GarbageInv, HazardSlots.UseIsHeld;
    InitInv(threads);
    InitLog(threads);
    RunKeepsLog(Init(threads), turns);
    HazardSafety.RunFreesOnce(threads, turns);
    HazardReclaim.RunKeepsGarbage(threads, turns);
    HazardSlots.RunKeepsUse(threads, turns);
  }

  lemma RunExtends(s: State, turns: seq<Turn>, t: Tid, m: Move)
    requires Legal(s, turns) && Enabled(Exec(s, turns), t, m)
    ensures Legal(s, turns + [Turn(t, m)]) && Exec(s, turns + [Turn(t, m)]) == Step(Exec(s, turns), t, m)
  {
    hide Enabled, Step;
    assert (turns + [Turn(t, m)])[..|turns|] == turns;
  }

  /** Every thread is between operations, or has panicked for lack of a slot. */
  ghost predicate Settled(pcs: seq<Pc>) {
    forall t {:trigger pcs[t]} :: 0 <= t < |pcs| ==> pcs[t].Idle? || pcs[t].Panicked?
  }

  /** When no operation is in progress no slot is in use and nobody holds the retired list. */
  lemma SettledIsFree(s: State)
    requires Good(s) && Settled(s.pcs)
    ensures s.mutex.None? && NoSlotUsed(s.slots)
    ensures forall p :: p in s.mem <==> p in s.hist.chain || p in s.retired
  {
    hide Links, Protected, SlotsExclusive;
    forall i: nat ensures !HazardSlots.SlotHeld(s.pcs, i) { SettledHoldsNothing(s.pcs, i); }
  }

  lemma SettledHoldsNothing(pcs: seq<Pc>, i: nat)
    requires Settled(pcs)
    ensures !HazardSlots.SlotHeld(pcs, i)
  {
  }

  predicate NoSlotUsed(slots: seq<Slot>) {
    forall i :: 0 <= i < |slots| ==> !slots[i].inUse
  }

  lemma {:induction false} NothingPublished(slots: seq<Slot>, from: nat)
    requires NoSlotUsed(slots) && from <= |slots|
    ensures Published(slots, from) == []
    decreases |slots| - from
  {
    if from < |slots| { NothingPublished(slots, from + 1); }
  }

  /** The index of the first slot that is not in use. */
  lemma {:induction false} FirstUnused(slots: seq<Slot>) returns (i: nat)
    requires exists k :: 0 <= k < |slots| && !slots[k].inUse
    ensures i < |slots| && !slots[i].inUse && forall k :: 0 <= k < i ==> slots[k].inUse
  {
    i := 0;
    while slots[i].inUse
      invariant i < |slots| && forall k :: 0 <= k < i ==> slots[k].inUse
      decreases |slots| - i
    {
      i := i + 1;
    }
  }

  lemma PublishedNext(slots: seq<Slot>, j: nat)
    requires j < |slots|
    ensures Published(slots, j) ==
      (if slots[j].inUse && slots[j].ptr != NULL then [slots[j].ptr] else []) + Published(slots, j + 1)
  {
  }

  lemma PublishedEnd(slots: seq<Slot>)
    ensures Published(slots, |slots|) == []
  {
  }

  /** The log has grown by at most one event, and that is not an effect. */
  predicate NoNewEffect(before: seq<Event>, after: seq<Event>) {
    after == before ||
    (|after| == |before| + 1 && after[..|before|] == before && !after[|before|].TakeEffect?)
  }

  lemma SameContents(s: State, s': State)
    requires LogInv(s) && LogInv(s') && NoNewEffect(s.hist.log, s'.hist.log)
    ensures Values(s'.mem, s'.hist.chain) == Values(s.mem, s.hist.chain)
  {
    if s'.hist.log != s.hist.log {
      var e := s'.hist.log[|s.hist.log|];
      assert s'.hist.log == s.hist.log + [e];
      ReplayMore(s.hist.log, e);
    }
  }

  lemma PushDone(s: State, t: Tid)
    requires Good(s) && Enabled(s, t, Go) && s.pcs[t].PushCas? && s.head == s.pcs[t].seen && s.pcs[t].node in s.mem
    ensures var s' := DoPushCas(s, t);
      Values(s'.mem, s'.hist.chain) == [s.mem[s.pcs[t].node].value] + Values(s.mem, s.hist.chain)
  {
    PushTakesEffect(s, t);
  }

  lemma EmptyDone(s: State, t: Tid)
    requires Good(s) && Enabled(s, t, Go) && s.pcs[t].PopLoad? && s.head == NULL
    ensures var s' := DoPopLoad(s, t); Values(s.mem, s.hist.chain) == [] == Values(s'.mem, s'.hist.chain)
  {
    EmptyTakesEffect(s, t);
  }

  lemma NextReadable(s: State, t: Tid)
    requires Good(s) && Enabled(s, t, Go) && s.pcs[t].PopNext?
    ensures s.pcs[t].top in s.mem
  {
    assert Knows(s, t);
  }

  lemma PopDone(s: State, t: Tid)
    requires Good(s) && Enabled(s, t, Go) && s.pcs[t].PopCas? && s.head == s.pcs[t].top
    ensures var s', before := DoPopCas(s, t), Values(s.mem, s.hist.chain);
      && s.head in s.mem && before != [] && before[0] == s.mem[s.head].value
      && Values(s'.mem, s'.hist.chain) == before[1..]
  {
    assert Knows(s, t);
    PopTakesEffect(s, t);
  }

  /** The retired nodes a scan that found `hazards` keeps, and those it frees. */
  function Kept(retired: seq<Ptr>, hazards: seq<Ptr>): seq<Ptr> {
    if retired == [] then []
    else
      var n := |retired| - 1;
      Kept(retired[..n], hazards) + (if retired[n] in hazards then [retired[n]] else [])
  }

  function Freed(retired: seq<Ptr>, hazards: seq<Ptr>): set<Ptr> {
    set p | p in retired && p !in hazards
  }

  lemma KeptMore(retired: seq<Ptr>, p: Ptr, hazards: seq<Ptr>)
    ensures Kept(retired + [p], hazards) == Kept(retired, hazards) + (if p in hazards then [p] else [])
    ensures Freed(retired + [p], hazards) == Freed(retired, hazards) + (if p in hazards then {} else {p})
  {
    assert (retired + [p])[..|retired|] == retired;
  }

  lemma {:induction false} KeptNothing(retired: seq<Ptr>)
    ensures Kept(retired, []) == [] && Freed(retired, []) == set p | p in retired
  {
    if retired != [] { KeptNothing(retired[..|retired| - 1]); }
  }

  /** After looking at the first `done` entries of `all`, `k` of them are kept. */
  ghost predicate Sifted(all: seq<Ptr>, hazards: seq<Ptr>, done: nat, k: nat, now: seq<Ptr>) {
    && done <= |all| && k == |Kept(all[..done], hazards)|
    && now == Kept(all[..done], hazards) + all[done..]
  }

  lemma SiftStart(all: seq<Ptr>, hazards: seq<Ptr>)
    ensures Sifted(all, hazards, 0, 0, all) && Freed(all[..0], hazards) == {}
  {
  }

  lemma SiftMore(all: seq<Ptr>, hazards: seq<Ptr>, done: nat, k: nat, now: seq<Ptr>)
    requires Sifted(all, hazards, done, k, now) && k < |now|
    ensures done < |all| && now[k] == all[done]
    ensures now[k] in hazards ==> Sifted(all, hazards, done + 1, k + 1, now)
    ensures now[k] !in hazards ==> Sifted(all, hazards, done + 1, k, Without(now, k))
    ensures Freed(all[..done + 1], hazards) == Freed(all[..done], hazards) + (if now[k] in hazards then {} else {now[k]})
  {
    assert all[..done + 1] == all[..done] + [all[done]];
    KeptMore(all[..done], all[done], hazards);
  }

  lemma SiftEnd(all: seq<Ptr>, hazards: seq<Ptr>, done: nat, k: nat, now: seq<Ptr>)
    requires Sifted(all, hazards, done, k, now) && k == |now|
    ensures now == Kept(all, hazards) && all[..done] == all
  {
    assert all[done..] == [] && all[..done] == all;
  }

  lemma RetiredIsAllocated(s: State, k: nat)
    requires Good(s) && k < |s.retired|
    ensures s.retired[k] in s.mem
  {
    assert s.retired[k] in s.retired;
  }

  lemma MutexFree(s: State, t: Tid)
    requires Good(s) && t < |s.pcs| && !InCritical(s.pcs[t]) && (s.mutex.None? || s.mutex == Some(t))
    ensures s.mutex.None?
  {
  }

  /** A settled machine with an empty stack and an empty retired list has no node allocated. */
  lemma NothingLeft(s: State)
    requires Good(s) && Settled(s.pcs) && s.retired == [] && Values(s.mem, s.hist.chain) == []
    ensures s.mem == map[]
    ensures forall g: nat :: s.hist.freed[g] == if g < s.hist.stamp then 1 else 0
  {
    SettledIsFree(s);
    assert s.mem == map[];
    assert HazardSafety.LiveStamps(s.mem) == {};
  }

  class SafeTreiberStack {
    var head: Ptr
    var mem: map<Ptr, Cell>
    var allocations: nat
    var retired: seq<Ptr>
    const registry: Registry

    ghost const threads: nat
    ghost const me: Tid          // the thread that executes the methods
    ghost const others: seq<Pc>  // where the other threads are
    ghost var turns: seq<Turn>   // the run so far
    ghost var st: State          // the machine state it ends in

    ghost predicate InRun()
      reads this`turns, this`st
    {
      && me < threads == |others| && |st.pcs| == threads
      && Legal(Init(threads), turns) && st == Exec(Init(threads), turns) && Good(st)
    }

    /** The fields hold the machine's state, thread `me` is at `pc`, and nobody else holds the retired list. */
    ghost predicate Mirrors(pc: Pc)
      reads this, registry.inUse, registry.ptr
    {
      && registry.Valid()
      && InRun()
      && st.head == head && st.mem == mem && st.retired == retired && st.hist.stamp == allocations
      && st.slots == registry.View()
      && st.pcs[me] == pc && (st.mutex.None? || st.mutex == Some(me))
      && (forall t {:trigger st.pcs[t]} :: 0 <= t < threads && t != me ==> st.pcs[t] == others[t])
    }

    ghost predicate Valid()
      reads this, registry.inUse, registry.ptr
    {
      Mirrors(Idle)
    }

    ghost function Contents(): seq<U32>
      reads this`st
    {
      Values(st.mem, st.hist.chain)
    }

    /** The object at the end of any concurrent run, wherever the other threads are, as long as they do not hold the
        lock of the retired list. */
    constructor After(threads: nat, turns: seq<Turn>, me: Tid)
      requires Legal(Init(threads), turns) && me < threads
      requires var s := Exec(Init(threads), turns); |s.pcs| == threads && s.pcs[me].Idle? && s.mutex.None?
      ensures Valid() && this.threads == threads && this.turns == turns && this.me == me
      ensures this.others == Exec(Init(threads), turns).pcs
    {
      RunIsGood(threads, turns);
      var s := Exec(Init(threads), turns);
      head, mem, allocations, retired := s.head, s.mem, s.hist.stamp, s.retired;
      registry := new Registry.Holding(s.slots);
      this.threads, this.me, this.others, this.turns, st := threads, me, s.pcs, turns, s;
    }

    /** Thread `me` makes a move of the machine. */
    ghost method Advance(m: Move)
      requires InRun() && Enabled(st, me, m)
      modifies this`turns, this`st
      ensures InRun() && old(turns) <= turns
      ensures st == Step(old(st), me, m) && OneMoves(old(st), st, me)
      ensures NoNewEffect(old(st).hist.log, st.hist.log) ==> Contents() == old(Contents())
    {
      OnlyOneMoves(st, me, m);
      RunExtends(Init(threads), turns, me, m);
      turns, st := turns + [Turn(me, m)], Step(st, me, m);
      RunIsGood(threads, turns);
      if NoNewEffect(old(st).hist.log, st.hist.log) { SameContents(old(st), st); }
    }

    method CompareExchange(expected: Ptr, new_: Ptr) returns (won: bool)
      modifies this`head
      ensures won == (old(head) == expected)
      ensures head == if won then new_ else old(head)
    {
      won := head == expected;
      if won {
        head := new_;
      }
    }

    /** `at` is the address the allocator hands out. */
    method Push(value: U32, at: Ptr)
      requires Valid() && at != NULL && at !in mem
      modifies this`head, this`mem, this`allocations, this`turns, this`st
      ensures Valid() && old(turns) <= turns
      ensures Contents() == [value] + old(Contents())
      ensures retired == old(retired) && allocations == old(allocations) + 1
    {
      hide Good, Knows, WonByOthers, StampAt, Exec, Legal, Values, Replay, CallsOf, Registry.View;
      NewNode(value, at);
      hide Mirrors;
      var won := false;
      while !won
        invariant Mirrors(if won then Idle else PushLoad(at)) && old(turns) <= turns
        invariant !won ==> at in mem && mem[at].value == value
        invariant Contents() == if won then [value] + old(Contents()) else old(Contents())
        invariant retired == old(retired) && allocations == old(allocations) + 1
        decreases !won
      {
        won := TryPush(at);
      }
    }

    /** Allocates the node. */
    method NewNode(value: U32, at: Ptr)
      requires Valid() && at != NULL && at !in mem
      modifies this`mem, this`allocations, this`turns, this`st
      ensures Mirrors(PushLoad(at)) && old(turns) <= turns && Contents() == old(Contents())
      ensures mem == old(mem)[at := Cell(value, NULL, old(allocations))] && allocations == old(allocations) + 1
    {
      hide Good, Knows, WonByOthers, StampAt, Exec, Legal, Values, Replay, CallsOf, Registry.View;
      mem, allocations := mem[at := Cell(value, NULL, allocations)], allocations + 1;
      Advance(StartPush(value, at));
    }

    /** One round of the retry loop of push. */
    method TryPush(at: Ptr) returns (won: bool)
      requires Mirrors(PushLoad(at)) && at in mem
      modifies this`head, this`mem, this`turns, this`st
      ensures won && Mirrors(Idle) && old(turns) <= turns
      ensures Contents() == [old(mem[at].value)] + old(Contents())
      ensures mem == old(mem)[at := old(mem)[at].(next := old(head))]
    {
      hide Good, Knows, WonByOthers, StampAt, Exec, Legal, Values, Replay, CallsOf, Registry.View;
      var seen := LinkNew(at);
      won := CompareExchange(seen, at);
      PushDone(st, me);
      Advance(Go);
    }

    /** Points the new node at the head just loaded. */
    method LinkNew(at: Ptr) returns (seen: Ptr)
      requires Mirrors(PushLoad(at)) && at in mem
      modifies this`mem, this`turns, this`st
      ensures seen == head && Mirrors(PushCas(at, seen)) && old(turns) <= turns
      ensures Contents() == old(Contents())
      ensures mem == old(mem)[at := old(mem)[at].(next := seen)]
    {
      hide Good, Knows, WonByOthers, StampAt, Exec, Legal, Values, Replay, CallsOf, Registry.View;
      seen := head;
      Advance(Go);
      mem := mem[at := mem[at].(next := seen)];
      Advance(Go);
    }

    /** The first half of a round of pop: load, publish, re-check. Nobody interferes, so head is still `top`. */
    method ProtectTop(i: nat) returns (top: Ptr)
      requires Mirrors(PopLoad(i)) && i < MAX_HAZARDS && head != NULL
      modifies this`turns, this`st, registry.ptr
      ensures Mirrors(PopNext(i, top)) && old(turns) <= turns && top == head && top in mem
      ensures Contents() == old(Contents())
      ensures registry.View() == old(registry.View())[i := old(registry.View())[i].(ptr := top)]
    {
      hide Good, Knows, WonByOthers, StampAt, Exec, Legal, Values, Replay, CallsOf, Registry.View;
      top := Publish(i);
      assert head == top;
      Advance(Go);
      NextReadable(st, me);
    }

    /** Loads head and publishes it. */
    method Publish(i: nat) returns (top: Ptr)
      requires Mirrors(PopLoad(i)) && i < MAX_HAZARDS && head != NULL
      modifies this`turns, this`st, registry.ptr
      ensures Mirrors(PopVerify(i, top)) && old(turns) <= turns && top == head
      ensures Contents() == old(Contents())
      ensures registry.View() == old(registry.View())[i := old(registry.View())[i].(ptr := top)]
    {
      hide Good, Knows, WonByOthers, StampAt, Exec, Legal, Values, Replay, CallsOf, Registry.View;
      top := head;
      Advance(Go);
      registry.Protect(i, top);
      Advance(Go);
    }

    /** The second half: read the successor and exchange head. */
    method TakeTop(i: nat, top: Ptr)
      requires Mirrors(PopNext(i, top)) && head == top && top in mem
      modifies this`head, this`turns, this`st
      ensures Mirrors(PopValue(i, top)) && old(turns) <= turns
      ensures old(Contents()) != [] && mem[top].value == old(Contents())[0] && Contents() == old(Contents())[1..]
    {
      hide Good, Knows, WonByOthers, StampAt, Exec, Legal, Values, Replay, CallsOf, Registry.View;
      var next := mem[top].next;
      Advance(Go);
      var won := CompareExchange(top, next);
      PopDone(st, me);
      Advance(Go);
    }

    /** Dropping the guard of slot `i`. */
    method ReleaseSlot(i: nat, rest: Rest)
      requires Mirrors(DropClear(i, rest)) && i < MAX_HAZARDS
      modifies this`turns, this`st, registry.inUse, registry.ptr
      ensures Mirrors(if rest.ReturnNone? then Idle else RetireLock(rest.node, rest.value)) && old(turns) <= turns
      ensures Contents() == old(Contents())
      ensures registry.View() == old(registry.View())[i := Slot(false, NULL)]
    {
      hide Good, Knows, WonByOthers, StampAt, Exec, Legal, Values, Replay, CallsOf, Registry.View;
      registry.Release(i);
      Advance(Go);
      Advance(Go);
    }

    /** Reads the value of the node taken, clears the hazard, releases the slot, retires the node. */
    method Finish(i: nat, top: Ptr) returns (value: U32)
      requires Mirrors(PopValue(i, top)) && i < MAX_HAZARDS && top in mem
      modifies this`turns, this`st, registry.inUse, registry.ptr
      ensures value == mem[top].value && Mirrors(RetireLock(top, value)) && old(turns) <= turns
      ensures Contents() == old(Contents())
      ensures registry.View() == old(registry.View())[i := Slot(false, NULL)]
    {
      hide Good, Knows, WonByOthers, StampAt, Exec, Legal, Values, Replay, CallsOf, Registry.View;
      value := mem[top].value;
      Advance(Go);
      registry.Clear(i);
      Advance(Go);
      ReleaseSlot(i, RetireNode(top, value));
    }

    /** One element of the retain pass: keep it or free it. */
    method SiftOne(k: nat, hazards: seq<Ptr>, result: Option<U32>) returns (next: nat)
      requires Mirrors(Sift(k, hazards, result)) && k < |retired|
      modifies this`mem, this`retired, this`turns, this`st
      ensures Mirrors(Sift(next, hazards, result)) && old(turns) <= turns
      ensures Contents() == old(Contents())
      ensures old(retired[k]) in hazards ==> next == k + 1 && retired == old(retired) && mem == old(mem)
      ensures old(retired[k]) !in hazards ==>
        next == k && retired == Without(old(retired), k) && mem == old(mem) - {old(retired[k])}
    {
      hide Good, Knows, WonByOthers, StampAt, Exec, Legal, Values, Replay, CallsOf, Registry.View;
      var p := retired[k];
      if p in hazards {
        next := k + 1;
      } else {
        RetiredIsAllocated(st, k);
        mem := mem - {p};
        retired := Without(retired, k);
        next := k;
      }
      Advance(Go);
    }

    /** Keeps the retired nodes that are hazarded, in order, and frees the others. */
    method SiftRetired(hazards: seq<Ptr>, result: Option<U32>)
      requires Mirrors(Sift(0, hazards, result))
      modifies this`mem, this`retired, this`turns, this`st
      ensures Mirrors(Unlock(result)) && old(turns) <= turns
      ensures Contents() == old(Contents())
      ensures retired == Kept(old(retired), hazards)
      ensures mem.Keys == old(mem).Keys - Freed(old(retired), hazards)
    {
      hide Good, Knows, WonByOthers, StampAt, Exec, Legal, Values, Replay, CallsOf, Registry.View;
      hide Mirrors, Kept, Freed, Without;
      var k: nat := 0;
      ghost var all, done: nat := retired, 0;
      SiftStart(all, hazards);
      while k < |retired|
        invariant Mirrors(Sift(k, hazards, result)) && old(turns) <= turns
        invariant Sifted(all, hazards, done, k, retired)
        invariant mem.Keys == old(mem).Keys - Freed(all[..done], hazards)
        invariant Contents() == old(Contents())
        decreases |retired| - k
      {
        SiftMore(all, hazards, done, k, retired);
        k := SiftOne(k, hazards, result);
        done := done + 1;
      }
      assert Sifted(all, hazards, done, k, retired);
      SiftEnd(all, hazards, done, k, retired);
      FinishSift(k, hazards, result);
    }

    ghost method FinishSift(k: nat, hazards: seq<Ptr>, result: Option<U32>)
      requires Mirrors(Sift(k, hazards, result)) && k == |retired|
      modifies this`turns, this`st
      ensures Mirrors(Unlock(result)) && old(turns) <= turns && Contents() == old(Contents())
    {
      hide Good, Knows, WonByOthers, StampAt, Exec, Legal, Values, Replay, CallsOf, Registry.View;
      Advance(Go);
    }

    /** The scan of one slot, in machine steps. */
    ghost method ScanSlot(j: nat, found: seq<Ptr>, result: Option<U32>) returns (more: seq<Ptr>)
      requires Mirrors(ScanUse(j, found, result)) && j < MAX_HAZARDS
      modifies this`turns, this`st
      ensures Mirrors(AfterSlot(j, more, result)) && old(turns) <= turns
      ensures Contents() == old(Contents())
      ensures var slot := registry.View()[j]; more == found + if slot.inUse && slot.ptr != NULL then [slot.ptr] else []
    {
      hide Good, Knows, WonByOthers, StampAt, Exec, Legal, Values, Replay, CallsOf, Registry.View;
      var slot := registry.View()[j];
      more := if slot.inUse && slot.ptr != NULL then found + [slot.ptr] else found;
      assert found + [] == found;
      Advance(Go);
      if slot.inUse { Advance(Go); }
    }

    /** The scan of the slots from `j` on. */
    ghost method ScanSlots(j: nat, found: seq<Ptr>, result: Option<U32>)
      requires Mirrors(ScanUse(j, found, result)) && j < MAX_HAZARDS
      modifies this`turns, this`st
      ensures Mirrors(Sift(0, found + Published(registry.View(), j), result)) && old(turns) <= turns
      ensures Contents() == old(Contents())
      decreases MAX_HAZARDS - j
    {
      hide Good, Knows, WonByOthers, StampAt, Exec, Legal, Values, Replay, CallsOf, Registry.View, Published;
      assert registry.Valid();
      hide Mirrors;
      PublishedNext(registry.View(), j);
      var more := ScanSlot(j, found, result);
      assert more + Published(registry.View(), j + 1) == found + Published(registry.View(), j);
      if j + 1 < MAX_HAZARDS {
        ScanSlots(j + 1, more, result);
      } else {
        PublishedEnd(registry.View());
        assert more + [] == more;
      }
    }

    /** Frees the retired nodes that no slot publishes. */
    method ReclaimLocked(result: Option<U32>)
      requires Mirrors(ScanUse(0, [], result))
      modifies this`mem, this`retired, this`turns, this`st
      ensures Mirrors(Unlock(result)) && old(turns) <= turns
      ensures Contents() == old(Contents())
      ensures retired == Kept(old(retired), Published(registry.View(), 0))
      ensures mem.Keys == old(mem).Keys - Freed(old(retired), Published(registry.View(), 0))
    {
      hide Good, Knows, WonByOthers, StampAt, Exec, Legal, Values, Replay, CallsOf, Registry.View;
      hide Kept, Freed, Published;
      var hazards := registry.Snapshot();
      assert [] + hazards == hazards;
      ScanSlots(0, [], result);
      SiftRetired(hazards, result);
    }

    /** Takes the lock and adds the node. */
    method Enlist(top: Ptr, value: U32)
      requires Mirrors(RetireLock(top, value))
      modifies this`retired, this`turns, this`st
      ensures retired == old(retired) + [top] && old(turns) <= turns
      ensures Mirrors(if |retired| >= 64 then ScanUse(0, [], Some(value)) else Unlock(Some(value)))
      ensures Contents() == old(Contents())
    {
      hide Good, Knows, WonByOthers, StampAt, Exec, Legal, Values, Replay, CallsOf, Registry.View;
      MutexFree(st, me);
      Advance(Go);
      retired := retired + [top];
      Advance(Go);
    }

    /** The retired list grows by the node, and is sifted once it has 64 entries. */
    method Retire(top: Ptr, value: U32)
      requires Mirrors(RetireLock(top, value))
      modifies this`mem, this`retired, this`turns, this`st
      ensures Mirrors(Idle) && old(turns) <= turns
      ensures Contents() == old(Contents())
      ensures var all := old(retired) + [top];
        retired == if |all| >= 64 then Kept(all, Published(registry.View(), 0)) else all
    {
      hide Good, Knows, WonByOthers, StampAt, Exec, Legal, Values, Replay, CallsOf, Registry.View;
      hide Kept, Freed, Published, Mirrors;
      Enlist(top, value);
      if |retired| >= RETIRE_THRESHOLD {
        ReclaimLocked(Some(value));
      }
      DropLock(Some(value));
    }

    ghost method DropLock(result: Option<U32>)
      requires Mirrors(Unlock(result))
      modifies this`turns, this`st
      ensures Mirrors(Idle) && old(turns) <= turns && Contents() == old(Contents())
    {
      hide Good, Knows, WonByOthers, StampAt, Exec, Legal, Values, Replay, CallsOf, Registry.View;
      Advance(Go);
    }

    ghost predicate HasFreeSlot()
      requires registry.Valid()
      reads registry.inUse, registry.ptr
    {
      exists i :: 0 <= i < MAX_HAZARDS && !registry.View()[i].inUse
    }

    /** Thread `me` tries the slots before `i`, which are all in use. */
    ghost method TrySlots(i: nat)
      requires Mirrors(Acquire(0)) && i < MAX_HAZARDS && forall k :: 0 <= k < i ==> registry.View()[k].inUse
      modifies this`turns, this`st
      ensures Mirrors(Acquire(i)) && old(turns) <= turns && Contents() == old(Contents())
    {
      hide Good, Knows, WonByOthers, StampAt, Exec, Legal, Values, Replay, CallsOf, Registry.View;
      var j: nat := 0;
      while j < i
        invariant j <= i && Mirrors(Acquire(j)) && old(turns) <= turns && Contents() == old(Contents())
      {
        Advance(Go);
        j := j + 1;
      }
    }

    /** The first free slot is taken; without one the pop panics. */
    method AcquireSlot() returns (i: nat)
      requires Valid() && HasFreeSlot()
      modifies this`turns, this`st, registry.inUse
      ensures i < MAX_HAZARDS && Mirrors(PopLoad(i)) && old(turns) <= turns
      ensures !old(registry.View())[i].inUse && forall k :: 0 <= k < i ==> old(registry.View())[k].inUse
      ensures registry.View() == old(registry.View())[i := old(registry.View())[i].(inUse := true)]
      ensures Contents() == old(Contents())
    {
      hide Good, Knows, WonByOthers, StampAt, Exec, Legal, Values, Replay, CallsOf, Registry.View;
      ghost var slots := registry.View();
      Advance(StartPop);
      ghost var first := FirstUnused(slots);
      TrySlots(first);
      var slot := registry.Acquire();
      i := slot.value;
      Advance(Go);
    }

    /** The successful round of pop and what follows it. */
    method PopTop(i: nat) returns (value: U32)
      requires Mirrors(PopLoad(i)) && i < MAX_HAZARDS && head != NULL
      modifies this`head, this`mem, this`retired, this`turns, this`st, registry.inUse, registry.ptr
      ensures Mirrors(Idle) && old(turns) <= turns
      ensures old(Contents()) != [] && value == old(Contents())[0] && Contents() == old(Contents())[1..]
      ensures registry.View() == old(registry.View())[i := Slot(false, NULL)]
      ensures var all := old(retired) + [old(head)];
        retired == if |all| >= 64 then Kept(all, Published(registry.View(), 0)) else all
    {
      hide Good, Knows, WonByOthers, StampAt, Exec, Legal, Values, Replay, CallsOf, Registry.View;
      ghost var slots := registry.View();
      assert registry.Valid();
      hide Mirrors, Kept, Published;
      var top := ProtectTop(i);
      TakeTop(i, top);
      value := Finish(i, top);
      assert registry.View() == slots[i := Slot(false, NULL)];
      Retire(top, value);
    }

    /** The round of pop that finds the stack empty. */
    method FindEmpty(i: nat)
      requires Mirrors(PopLoad(i)) && i < MAX_HAZARDS && head == NULL
      modifies this`turns, this`st, registry.inUse, registry.ptr
      ensures Mirrors(Idle) && old(turns) <= turns
      ensures old(Contents()) == [] == Contents()
      ensures registry.View() == old(registry.View())[i := Slot(false, NULL)]
    {
      hide Good, Knows, WonByOthers, StampAt, Exec, Legal, Values, Replay, CallsOf, Registry.View;
      EmptyDone(st, me);
      Advance(Go);
      ReleaseSlot(i, ReturnNone);
    }

    /** Returns and removes the top. Unless the stack is empty its node is retired, and once that makes 64 retired nodes
        those that no slot publishes are freed; the slot used is free again, and no other has changed. */
    method Pop() returns (result: Option<U32>)
      requires Valid() && HasFreeSlot()
      modifies this`head, this`mem, this`retired, this`turns, this`st, registry.inUse, registry.ptr
      ensures Valid() && old(turns) <= turns
      ensures result.None? <==> old(Contents()) == []
      ensures Contents() == if result.None? then [] else old(Contents())[1..]
      ensures result.Some? ==> result.value == old(Contents())[0]
      ensures exists i :: 0 <= i < MAX_HAZARDS && !old(registry.View())[i].inUse
                       && registry.View() == old(registry.View())[i := Slot(false, NULL)]
      ensures var all := old(retired) + [old(head)];
        retired == if result.None? then old(retired)
                   else if |all| >= 64 then Kept(all, Published(registry.View(), 0)) else all
    {
      hide Good, Knows, WonByOthers, StampAt, Exec, Legal, Values, Replay, CallsOf, Registry.View;
      assert registry.Valid();
      ghost var slots := registry.View();
      hide Mirrors, Kept, Published;
      var i := AcquireSlot();
      assert slots[i := slots[i].(inUse := true)][i := Slot(false, NULL)] == slots[i := Slot(false, NULL)];
      var empty := LooksEmpty(i);
      if empty {
        FindEmpty(i);
        return None;
      }
      var value := PopTop(i);
      return Some(value);
    }

    method LooksEmpty(i: nat) returns (empty: bool)
      requires Mirrors(PopLoad(i))
      ensures empty <==> head == NULL
    {
      empty := head == NULL;
    }

    ghost method TakeLock()
      requires Valid()
      modifies this`turns, this`st
      ensures Mirrors(ScanUse(0, [], None)) && old(turns) <= turns && Contents() == old(Contents())
    {
      hide Good, Knows, WonByOthers, StampAt, Exec, Legal, Values, Replay, CallsOf, Registry.View;
      MutexFree(st, me);
      Advance(StartReclaim);
      Advance(Go);
    }

    /** Frees the retired nodes that no slot publishes, and no others. */
    method ForceReclaim()
      requires Valid()
      modifies this`mem, this`retired, this`turns, this`st
      ensures Valid() && old(turns) <= turns
      ensures Contents() == old(Contents())
      ensures retired == Kept(old(retired), Published(registry.View(), 0))
      ensures mem.Keys == old(mem).Keys - Freed(old(retired), Published(registry.View(), 0))
    {
      hide Good, Knows, WonByOthers, StampAt, Exec, Legal, Values, Replay, CallsOf, Registry.View;
      hide Kept, Freed, Published;
      TakeLock();
      ReclaimLocked(None);
      DropLock(None);
    }

    /** Nobody else is in the middle of an operation. */
    ghost predicate Exclusive() {
      forall t {:trigger others[t]} :: 0 <= t < |others| && t != me ==> others[t].Idle? || others[t].Panicked?
    }

    lemma ExclusiveSlots()
      requires Valid() && Exclusive()
      ensures Settled(st.pcs) && NoSlotUsed(registry.View())
    {
      SettledIsFree(st);
    }

    /** A pop while nobody else is at work: nothing is hazarded, so the 64th retired node takes the others with it. */
    method PopExclusive()
      requires Valid() && Exclusive() && Contents() != []
      modifies this`head, this`mem, this`retired, this`turns, this`st, registry.inUse, registry.ptr
      ensures Valid() && old(turns) <= turns
      ensures Contents() == old(Contents())[1..]
      ensures retired == if |old(retired)| + 1 >= 64 then [] else old(retired) + [old(head)]
    {
      hide Good, Knows, WonByOthers, StampAt, Exec, Legal, Values, Replay, CallsOf, Registry.View, Kept, Freed, Published;
      ExclusiveSlots();
      assert !registry.View()[0].inUse;
      ghost var all := retired + [head];
      var popped := Pop();
      ExclusiveSlots();
      NothingPublished(registry.View(), 0);
      KeptNothing(all);
    }

    /** Pops `n` times while nobody else is at work, from an empty retired list: every 64th pop empties it again. */
    method PopTimes(n: nat)
      requires Valid() && Exclusive() && retired == [] && n <= |Contents()|
      modifies this`head, this`mem, this`retired, this`turns, this`st, registry.inUse, registry.ptr
      ensures Valid() && old(turns) <= turns
      ensures Contents() == old(Contents())[n..] && |retired| == n % 64
    {
      hide Mirrors, Values;
      for k := 0 to n
        invariant Valid() && old(turns) <= turns
        invariant Contents() == old(Contents())[k..] && |retired| == k % 64
      {
        PopExclusive();
      }
    }

    /** Whatever the concurrent run before it, drop leaves no node allocated, and every node ever pushed has been freed
        exactly once. The source frees the retired list outright; nothing is hazarded, so a reclamation pass frees the
        same nodes. */
    method Drop()
      requires Valid() && Exclusive()
      modifies this`head, this`mem, this`retired, this`turns, this`st, registry.inUse, registry.ptr
      ensures Valid() && old(turns) <= turns
      ensures mem == map[] && retired == [] && Contents() == []
      ensures forall g: nat :: st.hist.freed[g] == if g < allocations then 1 else 0
    {
      hide Good, Knows, WonByOthers, StampAt, Exec, Legal, Values, Replay, CallsOf, Registry.View, Kept, Freed, Published;
      var more := true;
      while more
        invariant Valid() && old(turns) <= turns
        invariant !more ==> Contents() == []
        decreases more, |Contents()|
      {
        ExclusiveSlots();
        assert !registry.View()[0].inUse;
        var popped := Pop();
        more := popped.Some?;
      }
      ExclusiveSlots();
      NothingPublished(registry.View(), 0);
      KeptNothing(retired);
      ForceReclaim();
      ExclusiveSlots();
      NothingLeft(st);
    }
  }
}

/** The grain of the machine: which access each step of push, pop and the reclaimer makes, and where it goes next. Every
    step reads or writes one shared location, so every interleaving of such accesses is a run. */
module HazardSteps {
  import opened Common
  import opened HazardStack

  /** Push: load head; write `next`; exchange. */
  lemma PushFlow(s: State, t: Tid)
    requires Enabled(s, t, Go)
    ensures var pc, s' := s.pcs[t], Step(s, t, Go);
      && (pc.PushLoad? ==> s'.pcs[t] == PushWrite(pc.node, s.head) && Unwritten(s, s'))
      && (pc.PushWrite? && pc.node in s.mem ==>
            s'.pcs[t] == PushCas(pc.node, pc.seen) && s'.mem == s.mem[pc.node := s.mem[pc.node].(next := pc.seen)]
            && s'.head == s.head && s'.slots == s.slots && s'.retired == s.retired)
      && (pc.PushCas? ==>
            s'.mem == s.mem && s'.slots == s.slots && s'.retired == s.retired
            && (if s.head == pc.seen then s'.head == pc.node && s'.pcs[t] == Idle
                else s'.head == s.head && s'.pcs[t] == PushLoad(pc.node)))
  {
    hide WonByOthers, ValueAt;
  }

  /** No shared location has changed. */
  ghost predicate Unwritten(s: State, s': State) {
    s'.head == s.head && s'.mem == s.mem && s'.slots == s.slots && s'.retired == s.retired && s'.mutex == s.mutex
  }

  /** Pop up to the exchange: try a slot; load head; publish; re-check; read the successor. */
  lemma PopFlow(s: State, t: Tid)
    requires Enabled(s, t, Go)
    ensures var pc, s' := s.pcs[t], Step(s, t, Go);
      && (pc.Acquire? && s.slots[pc.at].inUse ==>
            s'.pcs[t] == (if pc.at + 1 < 64 then Acquire(pc.at + 1) else Panicked) && Unwritten(s, s'))
      && (pc.Acquire? && !s.slots[pc.at].inUse ==>
            s'.pcs[t] == PopLoad(pc.at) && s'.slots == s.slots[pc.at := s.slots[pc.at].(inUse := true)])
      && (pc.PopLoad? ==>
            s'.pcs[t] == (if s.head == NULL then DropClear(pc.slot, ReturnNone) else PopProtect(pc.slot, s.head))
            && Unwritten(s, s'))
      && (pc.PopProtect? ==>
            s'.pcs[t] == PopVerify(pc.slot, pc.top) && s'.slots == s.slots[pc.slot := s.slots[pc.slot].(ptr := pc.top)])
      && (pc.PopVerify? ==>
            s'.pcs[t] == (if s.head == pc.top then PopNext(pc.slot, pc.top) else PopLoad(pc.slot)) && Unwritten(s, s'))
      && (pc.PopNext? && pc.top in s.mem ==> s'.pcs[t] == PopCas(pc.slot, pc.top, s.mem[pc.top].next) && Unwritten(s, s'))
  {
    hide WonByOthers, ValueAt, StampAt;
  }

  /** Pop from the exchange on: exchange; read the value; clear; clear again and release on dropping the guard. */
  lemma PopEndFlow(s: State, t: Tid)
    requires Enabled(s, t, Go)
    ensures var pc, s' := s.pcs[t], Step(s, t, Go);
      && (pc.PopCas? ==>
            if s.head == pc.top then s'.head == pc.next && s'.pcs[t] == PopValue(pc.slot, pc.top)
            else s'.head == s.head && s'.pcs[t] == PopLoad(pc.slot))
      && (pc.PopValue? && pc.top in s.mem ==>
            s'.pcs[t] == PopClear(pc.slot, pc.top, s.mem[pc.top].value) && Unwritten(s, s'))
      && (pc.PopClear? ==>
            s'.pcs[t] == DropClear(pc.slot, RetireNode(pc.top, pc.value))
            && s'.slots == s.slots[pc.slot := s.slots[pc.slot].(ptr := NULL)])
      && (pc.DropClear? ==>
            s'.pcs[t] == DropRelease(pc.slot, pc.rest) && s'.slots == s.slots[pc.slot := s.slots[pc.slot].(ptr := NULL)])
      && (pc.DropRelease? ==>
            s'.pcs[t] == (if pc.rest.ReturnNone? then Idle else RetireLock(pc.rest.node, pc.rest.value))
            && s'.slots == s.slots[pc.slot := s.slots[pc.slot].(inUse := false)])
  {
    hide WonByOthers, ValueAt;
  }

  /** The reclaimer: lock; read `in_use` of a slot, then, if it is set, `ptr`; sift one retired node at a time; unlock. */
  lemma ReclaimFlow(s: State, t: Tid)
    requires Enabled(s, t, Go)
    ensures var pc, s' := s.pcs[t], Step(s, t, Go);
      && (pc.RetireLock? ==> s'.pcs[t] == RetirePush(pc.top, pc.value) && s'.mutex == Some(t) && s'.retired == s.retired)
      && (pc.ForceLock? ==> s'.pcs[t] == ScanUse(0, [], None) && s'.mutex == Some(t))
      && (pc.ScanUse? ==>
            s'.pcs[t] == (if s.slots[pc.at].inUse then ScanPtr(pc.at, pc.found, pc.result)
                          else Following(pc.at, pc.found, pc.result)) && Unwritten(s, s'))
      && (pc.ScanPtr? ==>
            var p := s.slots[pc.at].ptr;
            s'.pcs[t] == Following(pc.at, if p != NULL then pc.found + [p] else pc.found, pc.result) && Unwritten(s, s'))
      && (pc.Sift? && pc.at < |s.retired| && s.retired[pc.at] in pc.found ==>
            s'.pcs[t] == Sift(pc.at + 1, pc.found, pc.result) && Unwritten(s, s'))
      && (pc.Sift? && pc.at < |s.retired| && s.retired[pc.at] !in pc.found && s.retired[pc.at] in s.mem ==>
            s'.pcs[t] == Sift(pc.at, pc.found, pc.result) && s'.mem == s.mem - {s.retired[pc.at]}
            && s'.retired == s.retired[..pc.at] + s.retired[pc.at + 1..])
      && (pc.Sift? && pc.at == |s.retired| ==> s'.pcs[t] == Unlock(pc.result) && Unwritten(s, s'))
      && (pc.Unlock? ==> s'.pcs[t] == Idle && s'.mutex == None && s'.retired == s.retired)
  {
    hide WonByOthers;
  }

  /** After slot `j` of 64. */
  function Following(j: nat, found: seq<Ptr>, result: Option<U32>): Pc {
    if j + 1 < 64 then ScanUse(j + 1, found, result) else Sift(0, found, result)
  }

  /** The calls. */
  lemma CallFlow(s: State, t: Tid, v: U32, at: Ptr)
    requires t < |s.pcs|
    ensures Enabled(s, t, StartPush(v, at)) ==>
      var s' := Step(s, t, StartPush(v, at));
      s'.pcs[t] == PushLoad(at) && s'.mem.Keys == s.mem.Keys + {at} && s'.mem[at].value == v && s'.mem[at].next == NULL
    ensures Enabled(s, t, StartPop) ==> Step(s, t, StartPop).pcs[t] == Acquire(0) && Unwritten(s, Step(s, t, StartPop))
    ensures Enabled(s, t, StartReclaim) ==>
      Step(s, t, StartReclaim).pcs[t] == ForceLock && Unwritten(s, Step(s, t, StartReclaim))
  {
  }
}

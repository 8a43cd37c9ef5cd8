/** What every step of the hazard-pointer stack keeps: ownership of nodes, the shape of the
    linked chain, exclusive slots, and the protection of validated pointers from the reclaimer. */
module HazardInvariant {
  import opened Common
  import opened HazardStack

  // ---- what a program counter stands for ----

  /** The slot a thread holds. */
  function Held(pc: Pc): Option<nat> {
    match pc
    case PopLoad(i) => Some(i)
    case PopProtect(i, _) => Some(i)
    case PopVerify(i, _) => Some(i)
    case PopNext(i, _) => Some(i)
    case PopCas(i, _, _) => Some(i)
    case PopValue(i, _) => Some(i)
    case PopClear(i, _, _) => Some(i)
    case DropClear(i, _) => Some(i)
    case DropRelease(i, _) => Some(i)
    case _ => None
  }

  /** The node only this thread knows, before it is published. */
  function PrivateNode(pc: Pc): Option<Ptr> {
    match pc
    case PushLoad(p) => Some(p)
    case PushWrite(p, _) => Some(p)
    case PushCas(p, _) => Some(p)
    case _ => None
  }

  /** The node this thread has unlinked and not retired yet. */
  function RemovedNode(pc: Pc): Option<Ptr> {
    match pc
    case PopValue(_, p) => Some(p)
    case PopClear(_, p, _) => Some(p)
    case DropClear(_, RetireNode(p, _)) => Some(p)
    case DropRelease(_, RetireNode(p, _)) => Some(p)
    case RetireLock(p, _) => Some(p)
    case RetirePush(p, _) => Some(p)
    case _ => None
  }

  /** The pointer this thread has validated and may still dereference. */
  function ValidatedPtr(pc: Pc): Option<Ptr> {
    match pc
    case PopNext(_, p) => Some(p)
    case PopCas(_, p, _) => Some(p)
    case _ => None
  }

  /** The thread is inside the critical section of the retired list. */
  ghost predicate InCritical(pc: Pc) {
    pc.RetirePush? || pc.ScanUse? || pc.ScanPtr? || pc.Sift? || pc.Unlock?
  }

  /** The scanning thread `pc` can no longer miss pointer `p` published in slot `i`:
      it has found it, or it has yet to read that slot. */
  ghost predicate WillSee(pc: Pc, i: nat, p: Ptr) {
    match pc
    case ScanUse(j, found, _) => j <= i || p in found
    case ScanPtr(j, found, _) => j <= i || p in found
    case Sift(_, found, _) => p in found
    case _ => true
  }

  // ---- the invariant ----

  ghost predicate Shape(s: State) {
    && |s.slots| == MAX_HAZARDS
    && |s.hist.validated| == |s.pcs|
    && |s.hist.base| == |s.pcs|
    && NULL !in s.mem
    && s.hist.owner.Keys == s.mem.Keys
  }

  /** Each allocated node has exactly one owner (the map is a function), and the owner knows it. */
  ghost predicate Accounts(owner: map<Ptr, Owner>, chain: seq<Ptr>, retired: seq<Ptr>, pcs: seq<Pc>) {
    && (forall p :: p in chain <==> p in owner && owner[p] == Linked)
    && (forall p :: p in retired <==> p in owner && owner[p] == Retired)
    && (forall p :: p in owner && owner[p].Private? ==>
          owner[p].t < |pcs| && PrivateNode(pcs[owner[p].t]) == Some(p))
    && (forall p :: p in owner && owner[p].Removed? ==>
          owner[p].t < |pcs| && RemovedNode(pcs[owner[p].t]) == Some(p))
    && NoDups(chain)
    && NoDups(retired)
  }

  ghost predicate Ownership(s: State) {
    Accounts(s.hist.owner, s.hist.chain, s.retired, s.pcs)
  }

  /** `chain` is the null-terminated list that starts at `head`. */
  ghost predicate Links(mem: map<Ptr, Cell>, head: Ptr, chain: seq<Ptr>) {
    && head == First(chain)
    && (forall k :: 0 <= k < |chain| ==> chain[k] in mem && mem[chain[k]].next == First(chain[k + 1..]))
  }

  function First(chain: seq<Ptr>): Ptr {
    if chain == [] then NULL else chain[0]
  }

  ghost predicate Owns(s: State, p: Ptr, o: Owner) {
    p in s.mem && p in s.hist.owner && s.hist.owner[p] == o
  }

  ghost predicate Holds(s: State, i: nat) {
    i < |s.slots| && i < MAX_HAZARDS && s.slots[i].inUse
  }

  /** `p` is published in slot `i`, still allocated, and the incarnation thread `t` validated. */
  ghost predicate Validated(s: State, t: Tid, i: nat, p: Ptr) {
    && Holds(s, i) && s.slots[i].ptr == p
    && p in s.mem && p in s.hist.owner && !s.hist.owner[p].Private?
    && t < |s.hist.validated| && s.mem[p].stamp == s.hist.validated[t]
  }

  /** What thread `t` knows at its program counter. */
  ghost predicate Knows(s: State, t: Tid)
    requires t < |s.pcs|
  {
    match s.pcs[t]
    case Fault => false
    case PushLoad(p) => Owns(s, p, Private(t))
    case PushWrite(p, _) => Owns(s, p, Private(t))
    case PushCas(p, seen) => Owns(s, p, Private(t)) && s.mem[p].next == seen
    case Acquire(j) => j < MAX_HAZARDS
    case PopLoad(i) => Holds(s, i)
    case PopProtect(i, p) => Holds(s, i) && p != NULL
    case PopVerify(i, p) => Holds(s, i) && p != NULL && s.slots[i].ptr == p
    case PopNext(i, p) => Validated(s, t, i, p)
    case PopCas(i, p, next) => Validated(s, t, i, p) && s.mem[p].next == next
    case PopValue(i, p) =>
      && Holds(s, i) && Owns(s, p, Removed(t))
      && t < |s.hist.validated| && s.mem[p].stamp == s.hist.validated[t]
    case PopClear(i, p, _) => Holds(s, i) && Owns(s, p, Removed(t))
    case DropClear(i, rest) => Holds(s, i) && (rest.RetireNode? ==> Owns(s, rest.node, Removed(t)))
    case DropRelease(i, rest) => Holds(s, i) && (rest.RetireNode? ==> Owns(s, rest.node, Removed(t)))
    case RetireLock(p, _) => Owns(s, p, Removed(t))
    case RetirePush(p, _) => Owns(s, p, Removed(t)) && s.mutex == Some(t)
    case ScanUse(j, _, _) => j < MAX_HAZARDS && s.mutex == Some(t)
    case ScanPtr(j, _, _) => j < MAX_HAZARDS && s.mutex == Some(t)
    case Sift(k, _, _) => k <= |s.retired| && s.mutex == Some(t)
    case Unlock(_) => s.mutex == Some(t)
    case _ => true
  }

  ghost predicate AllKnow(s: State) {
    forall t {:trigger Knows(s, t)} {:trigger s.pcs[t]} :: 0 <= t < |s.pcs| ==> Knows(s, t)
  }

  /** No slot has two holders. */
  ghost predicate SlotsExclusive(s: State) {
    forall t, u :: 0 <= t < u < |s.pcs| && Held(s.pcs[t]).Some? ==> Held(s.pcs[t]) != Held(s.pcs[u])
  }

  /** The mutex is held by a thread that is in its critical section. */
  ghost predicate MutexHeld(s: State) {
    s.mutex.Some? ==> s.mutex.value < |s.pcs| && InCritical(s.pcs[s.mutex.value])
  }

  /** A validated pointer that has been retired will be found by any scan in progress. */
  ghost predicate Protected(s: State) {
    forall t, r :: 0 <= t < |s.pcs| && 0 <= r < |s.pcs| && ValidatedPtr(s.pcs[t]).Some? ==>
      s.pcs[t].top in s.retired ==> WillSee(s.pcs[r], s.pcs[t].slot, s.pcs[t].top)
  }

  ghost predicate Inv(s: State) {
    && Shape(s)
    && Ownership(s)
    && Links(s.mem, s.head, s.hist.chain)
    && AllKnow(s)
    && SlotsExclusive(s)
    && MutexHeld(s)
    && Protected(s)
  }

  lemma InitInv(threads: nat)
    ensures Inv(Init(threads))
  {
  }

  // ---- frames ----

  /** Nothing a thread other than `t` relies on has changed. */
  ghost predicate OthersKeep(s: State, s': State, t: Tid) {
    && |s'.pcs| == |s.pcs| && |s'.slots| == |s.slots|
    && |s'.hist.validated| == |s.hist.validated| && |s'.hist.base| == |s.hist.base|
    && (forall u :: 0 <= u < |s.pcs| && u != t ==> s'.pcs[u] == s.pcs[u])
    && (forall u :: 0 <= u < |s.hist.validated| && u != t ==> s'.hist.validated[u] == s.hist.validated[u])
    && (forall u :: 0 <= u < |s.pcs| && u != t && Held(s.pcs[u]).Some? && Held(s.pcs[u]).value < |s.slots| ==>
          s'.slots[Held(s.pcs[u]).value] == s.slots[Held(s.pcs[u]).value])
    && (forall p :: p in s.mem && p in s.hist.owner && s.hist.owner[p] != Private(t) && p in s'.mem ==>
          s'.mem[p] == s.mem[p])
    && (forall p: Ptr, u: Tid :: u != t && (Owns(s, p, Private(u)) || Owns(s, p, Removed(u))) ==>
          Owns(s', p, s.hist.owner[p]))
    && (forall u :: 0 <= u < |s.pcs| && u != t && ValidatedPtr(s.pcs[u]).Some? ==>
          var p := s.pcs[u].top;
          p in s'.mem && p in s'.hist.owner && (p in s.hist.owner && !s.hist.owner[p].Private? ==> !s'.hist.owner[p].Private?))
    && (s.mutex.Some? && s.mutex != Some(t) ==> s'.mutex == s.mutex)
    && (s.mutex == Some(t) || s'.retired == s.retired)
  }

  lemma OthersKnow(s: State, s': State, t: Tid, u: Tid)
    requires AllKnow(s) && OthersKeep(s, s', t) && MutexHeld(s)
    requires u < |s.pcs| && u != t
    ensures Knows(s', u)
  {
    assert Knows(s, u);
    var pc := s.pcs[u];
  }

  /** A step that leaves memory, links, ownership and the retired list alone. */
  ghost predicate HeapUntouched(s: State, s': State) {
    && s'.head == s.head && s'.mem == s.mem && s'.retired == s.retired
    && s'.hist.owner == s.hist.owner && s'.hist.chain == s.hist.chain
  }

  /** The slot thread `t` holds afterwards is the one it held, or one nobody held. */
  ghost predicate SlotKept(s: State, s': State, t: Tid)
    requires t < |s.pcs| && |s'.pcs| == |s.pcs|
  {
    Held(s'.pcs[t]).Some? && Held(s'.pcs[t]) != Held(s.pcs[t]) ==>
      Held(s'.pcs[t]).value < |s.slots| && !s.slots[Held(s'.pcs[t]).value].inUse
  }

  /** What thread `t` has newly validated is not retired, and a scan by `t` loses no validated pointer. */
  ghost predicate StillProtected(s: State, s': State, t: Tid)
    requires t < |s.pcs| && |s'.pcs| == |s.pcs|
  {
    && (ValidatedPtr(s'.pcs[t]).Some? ==>
          || s'.pcs[t].top !in s'.retired
          || (ValidatedPtr(s.pcs[t]) == ValidatedPtr(s'.pcs[t]) && s'.pcs[t].slot == s.pcs[t].slot))
    && (forall i: nat, p: Ptr :: i < MAX_HAZARDS && p != NULL && Holds(s, i) && s.slots[i].ptr == p && WillSee(s.pcs[t], i, p) ==>
          WillSee(s'.pcs[t], i, p))
  }

  lemma ProtectedAfter(s: State, s': State, t: Tid)
    requires Inv(s) && t < |s.pcs| && OthersKeep(s, s', t) && s'.retired == s.retired
    requires StillProtected(s, s', t)
    ensures Protected(s')
  {
  }

  /** Only thread `t` moves, and only slot `i` may change; no other thread holds that slot. */
  ghost predicate LocalStep(s: State, s': State, t: Tid, i: nat)
    requires t < |s.pcs|
  {
    && HeapUntouched(s, s')
    && |s'.pcs| == |s.pcs| && s'.pcs == s.pcs[t := s'.pcs[t]]
    && |s'.hist.base| == |s.hist.base|
    && |s'.hist.validated| == |s.hist.validated| == |s.pcs|
    && (forall u :: 0 <= u < |s.pcs| && u != t ==> s'.hist.validated[u] == s.hist.validated[u])
    && |s'.slots| == |s.slots|
    && (s'.slots == s.slots ||
        (i < |s.slots| && s'.slots == s.slots[i := s'.slots[i]] && (Held(s.pcs[t]) == Some(i) || !s.slots[i].inUse)))
    && (s'.mutex == s.mutex || s.mutex.None? || s.mutex == Some(t))
  }

  lemma LocalStepOthersKeep(s: State, s': State, t: Tid, i: nat)
    requires Shape(s) && AllKnow(s) && SlotsExclusive(s) && t < |s.pcs| && LocalStep(s, s', t, i)
    ensures OthersKeep(s, s', t)
  {
    forall u | 0 <= u < |s.pcs| && u != t && Held(s.pcs[u]).Some?
      ensures s'.slots[Held(s.pcs[u]).value] == s.slots[Held(s.pcs[u]).value]
    {
      assert Knows(s, u) && Knows(s, t);
    }
    forall u | 0 <= u < |s.pcs| && u != t && ValidatedPtr(s.pcs[u]).Some?
      ensures s.pcs[u].top in s'.mem && s.pcs[u].top in s'.hist.owner
    {
      assert Knows(s, u);
    }
  }

  lemma NonHeapKeeps(s: State, s': State, t: Tid, i: nat)
    requires Inv(s) && t < |s.pcs| && LocalStep(s, s', t, i)
    requires PrivateNode(s'.pcs[t]) == PrivateNode(s.pcs[t]) && RemovedNode(s'.pcs[t]) == RemovedNode(s.pcs[t])
    requires SlotKept(s, s', t)
    requires StillProtected(s, s', t)
    requires Knows(s', t)
    requires MutexHeld(s')
    ensures Inv(s')
  {
    LocalStepOthersKeep(s, s', t, i);
    forall u | 0 <= u < |s'.pcs| ensures Knows(s', u) {
      if u != t { OthersKnow(s, s', t, u); }
    }
    ProtectedAfter(s, s', t);
    SlotsStayExclusive(s, s', t);
  }

  lemma SlotsStayExclusive(s: State, s': State, t: Tid)
    requires AllKnow(s) && SlotsExclusive(s) && t < |s.pcs| && |s'.pcs| == |s.pcs| && s'.pcs == s.pcs[t := s'.pcs[t]]
    requires SlotKept(s, s', t)
    ensures SlotsExclusive(s')
  {
    forall u | 0 <= u < |s.pcs| && Held(s.pcs[u]).Some? ensures Holds(s, Held(s.pcs[u]).value) {
      assert Knows(s, u);
    }
  }

  // ---- steps that leave the heap alone ----

  lemma PopStartKeeps(s: State, t: Tid)
    requires Inv(s) && Enabled(s, t, StartPop)
    ensures Inv(BeginPop(s, t))
  {
    NonHeapKeeps(s, BeginPop(s, t), t, 0);
  }

  lemma ReclaimStartKeeps(s: State, t: Tid)
    requires Inv(s) && Enabled(s, t, StartReclaim)
    ensures Inv(Goto(s, t, ForceLock))
  {
    NonHeapKeeps(s, Goto(s, t, ForceLock), t, 0);
  }

  lemma PushLoadKeeps(s: State, t: Tid)
    requires Inv(s) && Enabled(s, t, Go) && s.pcs[t].PushLoad?
    ensures Inv(DoPushLoad(s, t))
  {
    hide Links, Accounts;
    assert Knows(s, t);
    NonHeapKeeps(s, DoPushLoad(s, t), t, 0);
  }

  lemma AcquireKeeps(s: State, t: Tid)
    requires Inv(s) && Enabled(s, t, Go) && s.pcs[t].Acquire?
    ensures Inv(DoAcquire(s, t))
  {
    assert Knows(s, t);
    NonHeapKeeps(s, DoAcquire(s, t), t, s.pcs[t].at);
  }

  lemma PopLoadKeeps(s: State, t: Tid)
    requires Inv(s) && Enabled(s, t, Go) && s.pcs[t].PopLoad?
    ensures Inv(DoPopLoad(s, t))
  {
    hide Links, Accounts;
    assert Knows(s, t);
    NonHeapKeeps(s, DoPopLoad(s, t), t, 0);
  }

  lemma PopProtectKeeps(s: State, t: Tid)
    requires Inv(s) && Enabled(s, t, Go) && s.pcs[t].PopProtect?
    ensures Inv(DoPopProtect(s, t))
  {
    assert Knows(s, t);
    NonHeapKeeps(s, DoPopProtect(s, t), t, s.pcs[t].slot);
  }

  lemma PopVerifyKeeps(s: State, t: Tid)
    requires Inv(s) && Enabled(s, t, Go) && s.pcs[t].PopVerify?
    ensures Inv(DoPopVerify(s, t))
  {
    hide SlotsExclusive;
    assert Knows(s, t);
    NonHeapKeeps(s, DoPopVerify(s, t), t, 0);
  }

  lemma PopNextKeeps(s: State, t: Tid)
    requires Inv(s) && Enabled(s, t, Go) && s.pcs[t].PopNext?
    ensures Inv(DoPopNext(s, t))
  {
    hide Links, Accounts;
    assert Knows(s, t);
    NonHeapKeeps(s, DoPopNext(s, t), t, 0);
  }

  lemma PopValueKeeps(s: State, t: Tid)
    requires Inv(s) && Enabled(s, t, Go) && s.pcs[t].PopValue?
    ensures Inv(DoPopValue(s, t))
  {
    hide Links, Accounts;
    assert Knows(s, t);
    NonHeapKeeps(s, DoPopValue(s, t), t, 0);
  }

  lemma PopClearKeeps(s: State, t: Tid)
    requires Inv(s) && Enabled(s, t, Go) && s.pcs[t].PopClear?
    ensures Inv(DoPopClear(s, t))
  {
    hide Ownership, Links;
    assert Knows(s, t);
    NonHeapKeeps(s, DoPopClear(s, t), t, s.pcs[t].slot);
  }

  lemma DropClearKeeps(s: State, t: Tid)
    requires Inv(s) && Enabled(s, t, Go) && s.pcs[t].DropClear?
    ensures Inv(DoDropClear(s, t))
  {
    assert Knows(s, t);
    NonHeapKeeps(s, DoDropClear(s, t), t, s.pcs[t].slot);
  }

  lemma DropReleaseKeeps(s: State, t: Tid)
    requires Inv(s) && Enabled(s, t, Go) && s.pcs[t].DropRelease?
    ensures Inv(DoDropRelease(s, t))
  {
    hide Ownership, Links;
    assert Knows(s, t);
    NonHeapKeeps(s, DoDropRelease(s, t), t, s.pcs[t].slot);
  }

  lemma RetireLockKeeps(s: State, t: Tid)
    requires Inv(s) && Enabled(s, t, Go) && s.pcs[t].RetireLock?
    ensures Inv(DoRetireLock(s, t))
  {
    hide Links, Accounts;
    assert Knows(s, t);
    NonHeapKeeps(s, DoRetireLock(s, t), t, 0);
  }

  lemma ForceLockKeeps(s: State, t: Tid)
    requires Inv(s) && Enabled(s, t, Go) && s.pcs[t].ForceLock?
    ensures Inv(DoForceLock(s, t))
  {
    hide Links, Accounts;
    assert Knows(s, t);
    NonHeapKeeps(s, DoForceLock(s, t), t, 0);
  }

  lemma ScanUseKeeps(s: State, t: Tid)
    requires Inv(s) && Enabled(s, t, Go) && s.pcs[t].ScanUse?
    ensures Inv(DoScanUse(s, t))
  {
    hide Links, Accounts;
    assert Knows(s, t);
    NonHeapKeeps(s, DoScanUse(s, t), t, 0);
  }

  lemma ScanPtrKeeps(s: State, t: Tid)
    requires Inv(s) && Enabled(s, t, Go) && s.pcs[t].ScanPtr?
    ensures Inv(DoScanPtr(s, t))
  {
    hide Links, Accounts;
    assert Knows(s, t);
    NonHeapKeeps(s, DoScanPtr(s, t), t, 0);
  }

  lemma UnlockKeeps(s: State, t: Tid)
    requires Inv(s) && Enabled(s, t, Go) && s.pcs[t].Unlock?
    ensures Inv(DoUnlock(s, t))
  {
    hide Links, Accounts;
    assert Knows(s, t);
    NonHeapKeeps(s, DoUnlock(s, t), t, 0);
  }

  // ---- steps that change the heap ----

  /** Only thread `t` moves, and only the entry of node `p` in memory and ownership changes. */
  ghost predicate HeapStep(s: State, s': State, t: Tid, p: Ptr)
    requires t < |s.pcs|
  {
    && |s'.pcs| == |s.pcs| && s'.pcs == s.pcs[t := s'.pcs[t]]
    && s'.slots == s.slots && s'.mutex == s.mutex
    && s'.hist.validated == s.hist.validated && |s'.hist.base| == |s.hist.base|
    && p != NULL
    && (forall q :: q != p ==> (q in s'.mem <==> q in s.mem) && (q in s'.hist.owner <==> q in s.hist.owner))
    && (forall q :: q != p && q in s.mem ==> s'.mem[q] == s.mem[q])
    && (forall q :: q != p && q in s.hist.owner ==> s'.hist.owner[q] == s.hist.owner[q])
    && (s.mutex == Some(t) || s'.retired == s.retired)
  }

  /** Node `p` is new, or belongs to `t`, or `t` takes it from the chain. */
  ghost predicate Entitled(s: State, s': State, t: Tid, p: Ptr) {
    || p !in s.mem
    || Owns(s, p, Private(t))
    || ((Owns(s, p, Removed(t)) || Owns(s, p, Linked))
        && p in s'.mem && s'.mem[p] == s.mem[p] && p in s'.hist.owner && !s'.hist.owner[p].Private?)
  }

  lemma HeapStepOthersKeep(s: State, s': State, t: Tid, p: Ptr)
    requires Shape(s) && AllKnow(s) && t < |s.pcs| && HeapStep(s, s', t, p) && Entitled(s, s', t, p)
    ensures OthersKeep(s, s', t)
  {
    forall u | 0 <= u < |s.pcs| && u != t && ValidatedPtr(s.pcs[u]).Some?
      ensures s.pcs[u].top in s'.mem && s.pcs[u].top in s'.hist.owner && !s'.hist.owner[s.pcs[u].top].Private?
    {
      assert Knows(s, u);
    }
  }

  /** What a heap step by `t` has to show once the frame and the ownership are settled. */
  lemma HeapStepKeeps(s: State, s': State, t: Tid)
    requires Inv(s) && t < |s.pcs| && OthersKeep(s, s', t)
    requires Shape(s') && Ownership(s') && Links(s'.mem, s'.head, s'.hist.chain)
    requires Held(s'.pcs[t]) == Held(s.pcs[t]) && ValidatedPtr(s'.pcs[t]).None?
    requires Knows(s', t)
    requires s'.mutex == s.mutex && (InCritical(s'.pcs[t]) == InCritical(s.pcs[t]))
    requires Protected(s')
    ensures Inv(s')
  {
    forall u | 0 <= u < |s'.pcs| ensures Knows(s', u) {
      if u != t { OthersKnow(s, s', t, u); }
    }
  }

  lemma PushStartOwnership(s: State, t: Tid, v: U32, at: Ptr)
    requires Inv(s) && Enabled(s, t, StartPush(v, at))
    ensures Shape(BeginPush(s, t, v, at)) && Ownership(BeginPush(s, t, v, at))
  {
    hide Protected, SlotsExclusive, Links;
  }

  lemma PushStartKeeps(s: State, t: Tid, v: U32, at: Ptr)
    requires Inv(s) && Enabled(s, t, StartPush(v, at))
    ensures Inv(BeginPush(s, t, v, at))
  {
    var s' := BeginPush(s, t, v, at);
    HeapStepOthersKeep(s, s', t, at);
    PushStartOwnership(s, t, v, at);
    ProtectedAfter(s, s', t);
    HeapStepKeeps(s, s', t);
  }

  lemma PushWriteOwnership(s: State, t: Tid)
    requires Inv(s) && Enabled(s, t, Go) && s.pcs[t].PushWrite?
    ensures var s' := DoPushWrite(s, t);
      Shape(s') && Ownership(s') && Links(s'.mem, s'.head, s'.hist.chain)
  {
    assert Knows(s, t);
    assert s.pcs[t].node !in s.hist.chain;
  }

  lemma PushWriteKeeps(s: State, t: Tid)
    requires Inv(s) && Enabled(s, t, Go) && s.pcs[t].PushWrite?
    ensures Inv(DoPushWrite(s, t))
  {
    var s' := DoPushWrite(s, t);
    assert Knows(s, t);
    HeapStepOthersKeep(s, s', t, s.pcs[t].node);
    PushWriteOwnership(s, t);
    ProtectedAfter(s, s', t);
    HeapStepKeeps(s, s', t);
  }

  lemma LinkAccounts(owner: map<Ptr, Owner>, chain: seq<Ptr>, retired: seq<Ptr>, pcs: seq<Pc>, t: Tid, pc: Pc, p: Ptr)
    requires Accounts(owner, chain, retired, pcs) && t < |pcs| && p in owner && owner[p] == Private(t)
    requires PrivateNode(pcs[t]) == Some(p) && PrivateNode(pc) == RemovedNode(pc) == RemovedNode(pcs[t]) == None
    ensures Accounts(owner[p := Linked], [p] + chain, retired, pcs[t := pc])
  {
    forall q ensures q in [p] + chain <==> q == p || q in chain {}
  }

  lemma PushCasOwnership(s: State, t: Tid)
    requires Inv(s) && Enabled(s, t, Go) && s.pcs[t].PushCas? && s.head == s.pcs[t].seen
    ensures Shape(DoPushCas(s, t)) && Ownership(DoPushCas(s, t))
  {
    hide Accounts, Links, Protected, SlotsExclusive;
    assert Knows(s, t);
    LinkAccounts(s.hist.owner, s.hist.chain, s.retired, s.pcs, t, Idle, s.pcs[t].node);
  }

  lemma LinksCons(mem: map<Ptr, Cell>, head: Ptr, chain: seq<Ptr>, p: Ptr)
    requires Links(mem, head, chain) && p in mem && mem[p].next == head
    ensures Links(mem, p, [p] + chain)
  {
    var c := [p] + chain;
    forall k | 0 <= k < |c| ensures c[k] in mem && mem[c[k]].next == First(c[k + 1..]) {
      assert c[k + 1..] == chain[k..];
      if k > 0 { assert c[k] == chain[k - 1] && chain[k..] == chain[(k - 1) + 1..]; }
    }
  }

  lemma PushCasLinks(s: State, t: Tid)
    requires Inv(s) && Enabled(s, t, Go) && s.pcs[t].PushCas? && s.head == s.pcs[t].seen
    ensures var s' := DoPushCas(s, t); Links(s'.mem, s'.head, s'.hist.chain)
  {
    hide Links, Accounts, Protected, SlotsExclusive;
    assert Knows(s, t);
    LinksCons(s.mem, s.head, s.hist.chain, s.pcs[t].node);
  }

  lemma PushCasKeeps(s: State, t: Tid)
    requires Inv(s) && Enabled(s, t, Go) && s.pcs[t].PushCas?
    ensures Inv(DoPushCas(s, t))
  {
    hide Accounts, Links;
    var s' := DoPushCas(s, t);
    assert Knows(s, t);
    if s.head != s.pcs[t].seen {
      NonHeapKeeps(s, s', t, 0);
    } else {
      HeapStepOthersKeep(s, s', t, s.pcs[t].node);
      PushCasOwnership(s, t);
      PushCasLinks(s, t);
      ProtectedAfter(s, s', t);
      HeapStepKeeps(s, s', t);
    }
  }

  lemma UnlinkAccounts(owner: map<Ptr, Owner>, chain: seq<Ptr>, retired: seq<Ptr>, pcs: seq<Pc>, t: Tid, pc: Pc)
    requires Accounts(owner, chain, retired, pcs) && t < |pcs| && chain != []
    requires PrivateNode(pcs[t]) == PrivateNode(pc) == RemovedNode(pcs[t]) == None && RemovedNode(pc) == Some(chain[0])
    ensures Accounts(owner[chain[0] := Removed(t)], chain[1..], retired, pcs[t := pc])
  {
    forall q ensures q in chain[1..] <==> q in chain && q != chain[0] {}
  }

  lemma PopCasOwnership(s: State, t: Tid)
    requires Inv(s) && Enabled(s, t, Go) && s.pcs[t].PopCas? && s.head == s.pcs[t].top
    ensures s.hist.chain != [] && s.hist.chain[0] == s.head
    ensures Shape(DoPopCas(s, t)) && Ownership(DoPopCas(s, t))
  {
    hide Accounts, Protected, SlotsExclusive;
    assert Knows(s, t);
    var PopCas(i, top, _) := s.pcs[t];
    UnlinkAccounts(s.hist.owner, s.hist.chain, s.retired, s.pcs, t, PopValue(i, top));
  }

  lemma LinksTail(mem: map<Ptr, Cell>, head: Ptr, c: seq<Ptr>)
    requires Links(mem, head, c) && c != []
    ensures head in mem && Links(mem, mem[head].next, c[1..])
  {
    assert c[0] in mem && mem[c[0]].next == First(c[0 + 1..]);
    forall k | 0 <= k < |c| - 1
      ensures c[1..][k] in mem && mem[c[1..][k]].next == First(c[1..][k + 1..])
    {
      assert c[1..][k] == c[k + 1] && c[1..][k + 1..] == c[(k + 1) + 1..];
    }
  }

  lemma PopCasLinks(s: State, t: Tid)
    requires Inv(s) && Enabled(s, t, Go) && s.pcs[t].PopCas? && s.head == s.pcs[t].top
    ensures var s' := DoPopCas(s, t); Links(s'.mem, s'.head, s'.hist.chain)
  {
    hide Accounts, Protected, SlotsExclusive, Links;
    assert Knows(s, t);
    PopCasOwnership(s, t);
    LinksTail(s.mem, s.head, s.hist.chain);
  }

  lemma PopCasFrame(s: State, t: Tid)
    requires Inv(s) && Enabled(s, t, Go) && s.pcs[t].PopCas? && s.head == s.pcs[t].top
    ensures var s' := DoPopCas(s, t); OthersKeep(s, s', t) && Knows(s', t) && Protected(s')
  {
    assert Knows(s, t);
    var s' := DoPopCas(s, t);
    assert Owns(s, s.head, Linked) by { assert s.hist.chain[0] == s.head; }
    HeapStepOthersKeep(s, s', t, s.head);
    ProtectedAfter(s, s', t);
  }

  lemma PopCasKeeps(s: State, t: Tid)
    requires Inv(s) && Enabled(s, t, Go) && s.pcs[t].PopCas?
    ensures Inv(DoPopCas(s, t))
  {
    hide Accounts, Links;
    var s' := DoPopCas(s, t);
    assert Knows(s, t);
    if s.head != s.pcs[t].top {
      NonHeapKeeps(s, s', t, 0);
    } else {
      PopCasOwnership(s, t);
      PopCasLinks(s, t);
      PopCasFrame(s, t);
      HeapStepKeeps(s, s', t);
    }
  }

  lemma RetireAccounts(owner: map<Ptr, Owner>, chain: seq<Ptr>, retired: seq<Ptr>, pcs: seq<Pc>, t: Tid, pc: Pc, p: Ptr)
    requires Accounts(owner, chain, retired, pcs) && t < |pcs| && p in owner && owner[p] == Removed(t)
    requires RemovedNode(pcs[t]) == Some(p) && PrivateNode(pc) == RemovedNode(pc) == PrivateNode(pcs[t]) == None
    ensures Accounts(owner[p := Retired], chain, retired + [p], pcs[t := pc])
  {
    forall q ensures q in retired + [p] <==> q in retired || q == p {}
  }

  lemma RetirePushOwnership(s: State, t: Tid)
    requires Inv(s) && Enabled(s, t, Go) && s.pcs[t].RetirePush?
    ensures Shape(DoRetirePush(s, t)) && Ownership(DoRetirePush(s, t))
  {
    hide Accounts, Links, Protected, SlotsExclusive;
    assert Knows(s, t);
    RetireAccounts(s.hist.owner, s.hist.chain, s.retired, s.pcs, t, DoRetirePush(s, t).pcs[t], s.pcs[t].top);
  }

  /** The scan that follows a retirement starts from slot 0, so it cannot miss anything yet. */
  lemma RetirePushProtected(s: State, t: Tid)
    requires Inv(s) && Enabled(s, t, Go) && s.pcs[t].RetirePush?
    ensures Protected(DoRetirePush(s, t))
  {
    hide Links, SlotsExclusive;
    assert Knows(s, t);
    forall r | 0 <= r < |s.pcs| && r != t ensures !InCritical(s.pcs[r]) { assert Knows(s, r); }
  }

  lemma RetirePushKeeps(s: State, t: Tid)
    requires Inv(s) && Enabled(s, t, Go) && s.pcs[t].RetirePush?
    ensures Inv(DoRetirePush(s, t))
  {
    hide Links, SlotsExclusive;
    var s' := DoRetirePush(s, t);
    assert Knows(s, t);
    HeapStepOthersKeep(s, s', t, s.pcs[t].top);
    RetirePushOwnership(s, t);
    RetirePushProtected(s, t);
    assert s.pcs[t].top !in s.hist.chain;
    HeapStepKeeps(s, s', t);
  }

  /** Dropping the entry at `k` of a list without duplicates removes exactly that element. */
  lemma WithoutMembers<T>(xs: seq<T>, k: nat)
    requires k < |xs| && NoDups(xs)
    ensures NoDups(Without(xs, k))
    ensures forall x :: x in Without(xs, k) <==> x in xs && x != xs[k]
  {
    var ys := Without(xs, k);
    forall x | x in xs && x != xs[k] ensures x in ys {
      var i :| 0 <= i < |xs| && xs[i] == x;
      assert ys[if i < k then i else i - 1] == x;
    }
  }

  /** The heart of the scheme: what the reclaimer frees, no thread has validated. */
  lemma FreedIsNotValidated(s: State, t: Tid, u: Tid)
    requires Inv(s) && t < |s.pcs| && u < |s.pcs| && s.pcs[t].Sift? && s.pcs[t].at < |s.retired|
    requires s.retired[s.pcs[t].at] !in s.pcs[t].found
    requires ValidatedPtr(s.pcs[u]).Some?
    ensures s.pcs[u].top != s.retired[s.pcs[t].at]
  {
  }

  ghost predicate Frees(s: State, t: Tid) {
    && t < |s.pcs| && s.pcs[t].Sift? && s.pcs[t].at < |s.retired|
    && s.retired[s.pcs[t].at] !in s.pcs[t].found && s.retired[s.pcs[t].at] in s.mem
  }

  /** Only node `p`, retired and validated by no other thread, disappears. */
  lemma FreeFrame(s: State, s': State, t: Tid, p: Ptr)
    requires Shape(s) && AllKnow(s) && t < |s.pcs| && s.mutex == Some(t) && Owns(s, p, Retired)
    requires |s'.pcs| == |s.pcs| && s'.pcs == s.pcs[t := s'.pcs[t]]
    requires s'.slots == s.slots && s'.mutex == s.mutex
    requires s'.hist.validated == s.hist.validated && s'.hist.base == s.hist.base
    requires s'.mem == s.mem - {p} && s'.hist.owner == s.hist.owner - {p}
    requires forall u :: 0 <= u < |s.pcs| && u != t && ValidatedPtr(s.pcs[u]).Some? ==> s.pcs[u].top != p
    ensures OthersKeep(s, s', t)
  {
    forall u | 0 <= u < |s.pcs| && u != t && ValidatedPtr(s.pcs[u]).Some?
      ensures s.pcs[u].top in s.mem && s.pcs[u].top in s.hist.owner
    {
      assert Knows(s, u);
    }
  }

  lemma FreeOthersKeep(s: State, t: Tid)
    requires Inv(s) && Frees(s, t)
    ensures OthersKeep(s, DoSift(s, t), t)
  {
    assert Knows(s, t);
    forall u | 0 <= u < |s.pcs| && u != t && ValidatedPtr(s.pcs[u]).Some?
      ensures s.pcs[u].top != s.retired[s.pcs[t].at]
    {
      FreedIsNotValidated(s, t, u);
    }
    FreeFrame(s, DoSift(s, t), t, s.retired[s.pcs[t].at]);
  }

  lemma FreeOwnership(s: State, t: Tid)
    requires Inv(s) && Frees(s, t)
    ensures Shape(DoSift(s, t)) && Ownership(DoSift(s, t))
  {
    WithoutMembers(s.retired, s.pcs[t].at);
  }

  lemma FreeProtected(s: State, t: Tid)
    requires Inv(s) && Frees(s, t)
    ensures Protected(DoSift(s, t))
  {
    WithoutMembers(s.retired, s.pcs[t].at);
  }

  lemma FreeKeeps(s: State, t: Tid)
    requires Inv(s) && Frees(s, t)
    ensures Inv(DoSift(s, t))
  {
    hide Protected, SlotsExclusive;
    var s', p := DoSift(s, t), s.retired[s.pcs[t].at];
    assert Knows(s, t);
    assert p !in s.hist.chain;
    assert s'.mem == s.mem - {p};
    assert Links(s'.mem, s'.head, s'.hist.chain);
    FreeOthersKeep(s, t);
    FreeOwnership(s, t);
    FreeProtected(s, t);
    HeapStepKeeps(s, s', t);
  }

  lemma SiftKeeps(s: State, t: Tid)
    requires Inv(s) && Enabled(s, t, Go) && s.pcs[t].Sift?
    ensures Inv(DoSift(s, t))
  {
    var s' := DoSift(s, t);
    assert Knows(s, t);
    if s.pcs[t].at == |s.retired| || s.retired[s.pcs[t].at] in s.pcs[t].found {
      NonHeapKeeps(s, s', t, 0);
    } else {
      FreeKeeps(s, t);
    }
  }

  // ---- every step, every run ----

  lemma StepKeeps(s: State, t: Tid, m: Move)
    requires Inv(s) && Enabled(s, t, m)
    ensures Inv(Step(s, t, m))
  {
    match m
    case StartPush(v, at) => PushStartKeeps(s, t, v, at);
    case StartPop => PopStartKeeps(s, t);
    case StartReclaim => ReclaimStartKeeps(s, t);
    case Go =>
      match s.pcs[t]
      case PushLoad(_) => PushLoadKeeps(s, t);
      case PushWrite(_, _) => PushWriteKeeps(s, t);
      case PushCas(_, _) => PushCasKeeps(s, t);
      case Acquire(_) => AcquireKeeps(s, t);
      case PopLoad(_) => PopLoadKeeps(s, t);
      case PopProtect(_, _) => PopProtectKeeps(s, t);
      case PopVerify(_, _) => PopVerifyKeeps(s, t);
      case PopNext(_, _) => PopNextKeeps(s, t);
      case PopCas(_, _, _) => PopCasKeeps(s, t);
      case PopValue(_, _) => PopValueKeeps(s, t);
      case PopClear(_, _, _) => PopClearKeeps(s, t);
      case DropClear(_, _) => DropClearKeeps(s, t);
      case DropRelease(_, _) => DropReleaseKeeps(s, t);
      case RetireLock(_, _) => RetireLockKeeps(s, t);
      case RetirePush(_, _) => RetirePushKeeps(s, t);
      case ForceLock => ForceLockKeeps(s, t);
      case ScanUse(_, _, _) => ScanUseKeeps(s, t);
      case ScanPtr(_, _, _) => ScanPtrKeeps(s, t);
      case Sift(_, _, _) => SiftKeeps(s, t);
      case Unlock(_) => UnlockKeeps(s, t);
  }

  lemma {:induction false} RunKeeps(s: State, turns: seq<Turn>)
    requires Inv(s) && Legal(s, turns)
    ensures Inv(Exec(s, turns))
  {
    if turns != [] {
      var n := |turns| - 1;
      RunKeeps(s, turns[..n]);
      StepKeeps(Exec(s, turns[..n]), turns[n].t, turns[n].m);
    }
  }
}

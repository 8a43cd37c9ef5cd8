/** The hazard-pointer stack as a machine in which every atomic access of every
    thread is one step.

    `State` holds what the program holds: the head pointer, the memory, the hazard
    slots, the retired list, its mutex and one program counter per thread. The field
    `hist` holds history variables; no guard and no program-visible update reads them. */
module HazardStack {
  import opened Common

  const MAX_HAZARDS: nat := 64
  const RETIRE_THRESHOLD: nat := 64

  /** An address; NULL is never allocated. */
  type Ptr = nat
  const NULL: Ptr := 0
  type Tid = nat

  /** A node in memory. `stamp` numbers the allocation the node comes from, so two
      incarnations of one address can be told apart. */
  datatype Cell = Cell(value: U32, next: Ptr, stamp: nat)

  datatype Slot = Slot(inUse: bool, ptr: Ptr)

  /** What is left to do once a pop has released its hazard slot. */
  datatype Rest = ReturnNone | RetireNode(node: Ptr, value: U32)

  datatype Pc =
    | Idle
    | Panicked                                              // every slot was taken
    | Fault                                                 // dereferenced or freed an address that is not allocated
    | PushLoad(node: Ptr)
    | PushWrite(node: Ptr, seen: Ptr)
    | PushCas(node: Ptr, seen: Ptr)
    | Acquire(at: nat)                                      // about to try slot `at`
    | PopLoad(slot: nat)
    | PopProtect(slot: nat, top: Ptr)
    | PopVerify(slot: nat, top: Ptr)
    | PopNext(slot: nat, top: Ptr)                          // validated: may dereference `top`
    | PopCas(slot: nat, top: Ptr, next: Ptr)
    | PopValue(slot: nat, top: Ptr)                         // won the exchange
    | PopClear(slot: nat, top: Ptr, value: U32)
    | DropClear(slot: nat, rest: Rest)
    | DropRelease(slot: nat, rest: Rest)
    | RetireLock(top: Ptr, value: U32)
    | RetirePush(top: Ptr, value: U32)
    | ForceLock
    | ScanUse(at: nat, found: seq<Ptr>, result: Option<U32>) // about to read in_use of slot `at`
    | ScanPtr(at: nat, found: seq<Ptr>, result: Option<U32>) // saw in_use, about to read ptr
    | Sift(at: nat, found: seq<Ptr>, result: Option<U32>)    // about to keep or free retired[at]
    | Unlock(result: Option<U32>)

  datatype Owner = Private(t: Tid) | Linked | Removed(t: Tid) | Retired

  datatype Effect = Pushed(value: U32) | Popped(value: U32) | FoundEmpty
  datatype Event =
    | CallPush(t: Tid, value: U32)
    | CallPop(t: Tid)
    | TakeEffect(t: Tid, effect: Effect)                    // the linearization point
    | Return(t: Tid, effect: Effect)
    | Retry(t: Tid)                                         // a failed re-check or a lost exchange

  datatype History = History(
    owner: map<Ptr, Owner>,      // who is responsible for each allocated node
    chain: seq<Ptr>,             // the nodes linked from head, top first
    log: seq<Event>,
    stamp: nat,                  // number of allocations so far
    freed: multiset<nat>,        // stamps of the freed nodes
    validated: seq<nat>,         // per thread: the incarnation its last successful re-check saw
    base: seq<nat>)              // per thread: exchanges won by others when it last loaded head

  datatype State = State(
    head: Ptr,
    mem: map<Ptr, Cell>,
    slots: seq<Slot>,
    retired: seq<Ptr>,
    mutex: Option<Tid>,
    pcs: seq<Pc>,
    hist: History)

  datatype Move = StartPush(value: U32, at: Ptr) | StartPop | StartReclaim | Go

  function Init(threads: nat): State {
    State(NULL, map[], seq(MAX_HAZARDS, _ => Slot(false, NULL)), [], None, seq(threads, _ => Idle),
          History(map[], [], [], 0, multiset{}, seq(threads, _ => 0), seq(threads, _ => 0)))
  }

  /** Which moves a thread may make. An idle thread may call `push`, the allocator handing it any
      address that is not allocated at the moment, or `pop`, or `force_reclaim`. */
  predicate Enabled(s: State, t: Tid, m: Move) {
    t < |s.pcs| &&
    match m
    case StartPush(_, at) => s.pcs[t].Idle? && at != NULL && at !in s.mem
    case StartPop => s.pcs[t].Idle?
    case StartReclaim => s.pcs[t].Idle?
    case Go =>
      && !s.pcs[t].Idle? && !s.pcs[t].Panicked? && !s.pcs[t].Fault?
      && (s.pcs[t].RetireLock? || s.pcs[t].ForceLock? ==> s.mutex.None?)
      && WellIndexed(s, s.pcs[t])
  }

  /** Local indices are in range. Every reachable state has this, see HazardInvariant.NeverStuck. */
  predicate WellIndexed(s: State, pc: Pc) {
    match pc
    case Acquire(j) => j < |s.slots|
    case PopProtect(i, _) => i < |s.slots|
    case PopClear(i, _, _) => i < |s.slots|
    case DropClear(i, _) => i < |s.slots|
    case DropRelease(i, _) => i < |s.slots|
    case ScanUse(j, _, _) => j < |s.slots|
    case ScanPtr(j, _, _) => j < |s.slots|
    case Sift(k, _, _) => k <= |s.retired|
    case _ => true
  }

  function Goto(s: State, t: Tid, pc: Pc): State
    requires t < |s.pcs|
  {
    s.(pcs := s.pcs[t := pc])
  }

  function Note(s: State, events: seq<Event>): State {
    s.(hist := s.hist.(log := s.hist.log + events))
  }

  function SetPtr(s: State, i: nat, p: Ptr): State
    requires i < |s.slots|
  {
    s.(slots := s.slots[i := s.slots[i].(ptr := p)])
  }

  function SetUse(s: State, i: nat, b: bool): State
    requires i < |s.slots|
  {
    s.(slots := s.slots[i := s.slots[i].(inUse := b)])
  }

  function ValueAt(mem: map<Ptr, Cell>, p: Ptr): U32 {
    if p in mem then mem[p].value else 0
  }

  function StampAt(mem: map<Ptr, Cell>, p: Ptr): nat {
    if p in mem then mem[p].stamp else 0
  }

  /** The exchanges won by threads other than `t`, counted from the log. */
  function WonByOthers(log: seq<Event>, t: Tid): nat {
    if log == [] then 0
    else
      var e := log[|log| - 1];
      WonByOthers(log[..|log| - 1], t) + (if Wins(e) && e.t != t then 1 else 0)
  }

  /** The event is a successful exchange of head. */
  predicate Wins(e: Event) {
    e.TakeEffect? && !e.effect.FoundEmpty?
  }

  function Rebase(s: State, t: Tid): State {
    if t < |s.hist.base|
    then s.(hist := s.hist.(base := s.hist.base[t := WonByOthers(s.hist.log, t)]))
    else s
  }

  function Validate(s: State, t: Tid, p: Ptr): State {
    if t < |s.hist.validated|
    then s.(hist := s.hist.(validated := s.hist.validated[t := StampAt(s.mem, p)]))
    else s
  }

  // ---- push ----

  function BeginPush(s: State, t: Tid, v: U32, at: Ptr): State
    requires t < |s.pcs|
  {
    var boxed := s.(mem := s.mem[at := Cell(v, NULL, s.hist.stamp)],
                    hist := s.hist.(owner := s.hist.owner[at := Private(t)], stamp := s.hist.stamp + 1));
    Note(Goto(boxed, t, PushLoad(at)), [CallPush(t, v)])
  }

  function DoPushLoad(s: State, t: Tid): State
    requires t < |s.pcs| && s.pcs[t].PushLoad?
  {
    Rebase(Goto(s, t, PushWrite(s.pcs[t].node, s.head)), t)
  }

  function DoPushWrite(s: State, t: Tid): State
    requires t < |s.pcs| && s.pcs[t].PushWrite?
  {
    var PushWrite(node, seen) := s.pcs[t];
    if node in s.mem
    then Goto(s.(mem := s.mem[node := s.mem[node].(next := seen)]), t, PushCas(node, seen))
    else Goto(s, t, Fault)
  }

  function DoPushCas(s: State, t: Tid): State
    requires t < |s.pcs| && s.pcs[t].PushCas?
  {
    var PushCas(node, seen) := s.pcs[t];
    if s.head == seen then
      var v := ValueAt(s.mem, node);
      var won := s.(head := node,
                    hist := s.hist.(owner := s.hist.owner[node := Linked], chain := [node] + s.hist.chain));
      Note(Goto(won, t, Idle), [TakeEffect(t, Pushed(v)), Return(t, Pushed(v))])
    else
      Note(Goto(s, t, PushLoad(node)), [Retry(t)])
  }

  // ---- pop ----

  function BeginPop(s: State, t: Tid): State
    requires t < |s.pcs|
  {
    Note(Goto(s, t, Acquire(0)), [CallPop(t)])
  }

  function DoAcquire(s: State, t: Tid): State
    requires t < |s.pcs| && s.pcs[t].Acquire? && WellIndexed(s, s.pcs[t])
  {
    var j := s.pcs[t].at;
    if !s.slots[j].inUse then Goto(SetUse(s, j, true), t, PopLoad(j))
    else if j + 1 < MAX_HAZARDS then Goto(s, t, Acquire(j + 1))
    else Goto(s, t, Panicked)
  }

  function DoPopLoad(s: State, t: Tid): State
    requires t < |s.pcs| && s.pcs[t].PopLoad?
  {
    var i := s.pcs[t].slot;
    if s.head == NULL
    then Note(Goto(s, t, DropClear(i, ReturnNone)), [TakeEffect(t, FoundEmpty)])
    else Rebase(Goto(s, t, PopProtect(i, s.head)), t)
  }

  function DoPopProtect(s: State, t: Tid): State
    requires t < |s.pcs| && s.pcs[t].PopProtect? && WellIndexed(s, s.pcs[t])
  {
    var PopProtect(i, top) := s.pcs[t];
    Goto(SetPtr(s, i, top), t, PopVerify(i, top))
  }

  function DoPopVerify(s: State, t: Tid): State
    requires t < |s.pcs| && s.pcs[t].PopVerify?
  {
    var PopVerify(i, top) := s.pcs[t];
    if s.head == top
    then Validate(Goto(s, t, PopNext(i, top)), t, top)
    else Note(Goto(s, t, PopLoad(i)), [Retry(t)])
  }

  function DoPopNext(s: State, t: Tid): State
    requires t < |s.pcs| && s.pcs[t].PopNext?
  {
    var PopNext(i, top) := s.pcs[t];
    Goto(s, t, if top in s.mem then PopCas(i, top, s.mem[top].next) else Fault)
  }

  function DoPopCas(s: State, t: Tid): State
    requires t < |s.pcs| && s.pcs[t].PopCas?
  {
    var PopCas(i, top, next) := s.pcs[t];
    if s.head == top then
      var won := s.(head := next,
                    hist := s.hist.(owner := s.hist.owner[top := Removed(t)],
                                    chain := if s.hist.chain == [] then [] else s.hist.chain[1..]));
      Note(Goto(won, t, PopValue(i, top)), [TakeEffect(t, Popped(ValueAt(s.mem, top)))])
    else
      Note(Goto(s, t, PopLoad(i)), [Retry(t)])
  }

  function DoPopValue(s: State, t: Tid): State
    requires t < |s.pcs| && s.pcs[t].PopValue?
  {
    var PopValue(i, top) := s.pcs[t];
    Goto(s, t, if top in s.mem then PopClear(i, top, s.mem[top].value) else Fault)
  }

  function DoPopClear(s: State, t: Tid): State
    requires t < |s.pcs| && s.pcs[t].PopClear? && WellIndexed(s, s.pcs[t])
  {
    var PopClear(i, top, v) := s.pcs[t];
    Goto(SetPtr(s, i, NULL), t, DropClear(i, RetireNode(top, v)))
  }

  // ---- releasing a hazard slot ----

  function DoDropClear(s: State, t: Tid): State
    requires t < |s.pcs| && s.pcs[t].DropClear? && WellIndexed(s, s.pcs[t])
  {
    var DropClear(i, rest) := s.pcs[t];
    Goto(SetPtr(s, i, NULL), t, DropRelease(i, rest))
  }

  function DoDropRelease(s: State, t: Tid): State
    requires t < |s.pcs| && s.pcs[t].DropRelease? && WellIndexed(s, s.pcs[t])
  {
    var DropRelease(i, rest) := s.pcs[t];
    match rest
    case ReturnNone => Note(Goto(SetUse(s, i, false), t, Idle), [Return(t, FoundEmpty)])
    case RetireNode(p, v) => Goto(SetUse(s, i, false), t, RetireLock(p, v))
  }

  // ---- retiring and reclaiming, under the mutex of the retired list ----

  function DoRetireLock(s: State, t: Tid): State
    requires t < |s.pcs| && s.pcs[t].RetireLock?
  {
    Goto(s.(mutex := Some(t)), t, RetirePush(s.pcs[t].top, s.pcs[t].value))
  }

  function DoRetirePush(s: State, t: Tid): State
    requires t < |s.pcs| && s.pcs[t].RetirePush?
  {
    var RetirePush(p, v) := s.pcs[t];
    var grown := s.(retired := s.retired + [p], hist := s.hist.(owner := s.hist.owner[p := Retired]));
    Goto(grown, t, if |grown.retired| >= RETIRE_THRESHOLD then ScanUse(0, [], Some(v)) else Unlock(Some(v)))
  }

  function DoForceLock(s: State, t: Tid): State
    requires t < |s.pcs| && s.pcs[t].ForceLock?
  {
    Goto(s.(mutex := Some(t)), t, ScanUse(0, [], None))
  }

  function AfterSlot(j: nat, found: seq<Ptr>, result: Option<U32>): Pc {
    if j + 1 < MAX_HAZARDS then ScanUse(j + 1, found, result) else Sift(0, found, result)
  }

  function DoScanUse(s: State, t: Tid): State
    requires t < |s.pcs| && s.pcs[t].ScanUse? && WellIndexed(s, s.pcs[t])
  {
    var ScanUse(j, found, result) := s.pcs[t];
    Goto(s, t, if s.slots[j].inUse then ScanPtr(j, found, result) else AfterSlot(j, found, result))
  }

  function DoScanPtr(s: State, t: Tid): State
    requires t < |s.pcs| && s.pcs[t].ScanPtr? && WellIndexed(s, s.pcs[t])
  {
    var ScanPtr(j, found, result) := s.pcs[t];
    var p := s.slots[j].ptr;
    Goto(s, t, AfterSlot(j, if p != NULL then found + [p] else found, result))
  }

  /** The retired list without the entry at `k`. */
  function Without<T>(xs: seq<T>, k: nat): seq<T>
    requires k < |xs|
  {
    xs[..k] + xs[k + 1..]
  }

  function DoSift(s: State, t: Tid): State
    requires t < |s.pcs| && s.pcs[t].Sift? && WellIndexed(s, s.pcs[t])
  {
    var Sift(k, found, result) := s.pcs[t];
    if k == |s.retired| then Goto(s, t, Unlock(result))
    else if s.retired[k] in found then Goto(s, t, Sift(k + 1, found, result))
    else if s.retired[k] !in s.mem then Goto(s, t, Fault)
    else
      var p := s.retired[k];
      Goto(s.(mem := s.mem - {p}, retired := Without(s.retired, k),
              hist := s.hist.(owner := s.hist.owner - {p}, freed := s.hist.freed + multiset{s.mem[p].stamp})),
           t, Sift(k, found, result))
  }

  function DoUnlock(s: State, t: Tid): State
    requires t < |s.pcs| && s.pcs[t].Unlock?
  {
    var freeLock := Goto(s.(mutex := None), t, Idle);
    match s.pcs[t].result
    case None => freeLock
    case Some(v) => Note(freeLock, [Return(t, Popped(v))])
  }

  function Step(s: State, t: Tid, m: Move): (s': State)
    requires Enabled(s, t, m)
    ensures |s'.pcs| == |s.pcs|
  {
    match m
    case StartPush(v, at) => BeginPush(s, t, v, at)
    case StartPop => BeginPop(s, t)
    case StartReclaim => Goto(s, t, ForceLock)
    case Go =>
      match s.pcs[t]
      case PushLoad(_) => DoPushLoad(s, t)
      case PushWrite(_, _) => DoPushWrite(s, t)
      case PushCas(_, _) => DoPushCas(s, t)
      case Acquire(_) => DoAcquire(s, t)
      case PopLoad(_) => DoPopLoad(s, t)
      case PopProtect(_, _) => DoPopProtect(s, t)
      case PopVerify(_, _) => DoPopVerify(s, t)
      case PopNext(_, _) => DoPopNext(s, t)
      case PopCas(_, _, _) => DoPopCas(s, t)
      case PopValue(_, _) => DoPopValue(s, t)
      case PopClear(_, _, _) => DoPopClear(s, t)
      case DropClear(_, _) => DoDropClear(s, t)
      case DropRelease(_, _) => DoDropRelease(s, t)
      case RetireLock(_, _) => DoRetireLock(s, t)
      case RetirePush(_, _) => DoRetirePush(s, t)
      case ForceLock => DoForceLock(s, t)
      case ScanUse(_, _, _) => DoScanUse(s, t)
      case ScanPtr(_, _, _) => DoScanPtr(s, t)
      case Sift(_, _, _) => DoSift(s, t)
      case Unlock(_) => DoUnlock(s, t)
  }

  // ---- runs ----

  datatype Turn = Turn(t: Tid, m: Move)

  /** `turns` is a run the machine can make from `s`. */
  predicate Legal(s: State, turns: seq<Turn>)
    decreases |turns|, 0
  {
    turns == [] ||
    (var n := |turns| - 1;
     Legal(s, turns[..n]) && Enabled(Exec(s, turns[..n]), turns[n].t, turns[n].m))
  }

  /** The state a run ends in. */
  function Exec(s: State, turns: seq<Turn>): State
    requires Legal(s, turns)
    decreases |turns|, 1
  {
    if turns == [] then s
    else
      var n := |turns| - 1;
      Step(Exec(s, turns[..n]), turns[n].t, turns[n].m)
  }

  predicate IsPushOrPop(pc: Pc) {
    || pc.PushLoad? || pc.PushWrite? || pc.PushCas? || pc.Acquire? || pc.PopLoad? || pc.PopProtect?
    || pc.PopVerify? || pc.PopNext? || pc.PopCas? || pc.PopValue? || pc.PopClear?
  }

  predicate OneMoves(s: State, s': State, t: Tid)
    requires t < |s.pcs|
  {
    |s'.pcs| == |s.pcs| && s'.pcs == s.pcs[t := s'.pcs[t]]
  }

  lemma OneMovesPushPop(s: State, t: Tid)
    requires Enabled(s, t, Go) && IsPushOrPop(s.pcs[t])
    ensures OneMoves(s, Step(s, t, Go), t)
  {
    hide WonByOthers, ValueAt, StampAt;
  }

  lemma OneMovesRest(s: State, t: Tid)
    requires Enabled(s, t, Go) && !IsPushOrPop(s.pcs[t])
    ensures OneMoves(s, Step(s, t, Go), t)
  {
  }

  /** A step moves one program counter. */
  lemma OnlyOneMoves(s: State, t: Tid, m: Move)
    requires Enabled(s, t, m)
    ensures OneMoves(s, Step(s, t, m), t)
  {
    if m.Go? {
      if IsPushOrPop(s.pcs[t]) { OneMovesPushPop(s, t); } else { OneMovesRest(s, t); }
    }
  }
}

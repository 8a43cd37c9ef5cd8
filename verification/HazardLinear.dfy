/** Every run of the hazard-pointer stack refines an atomic last-in first-out stack. */
module HazardLinear {
  import opened Common
  import opened HazardStack
  import opened HazardInvariant

  // ---- the atomic stack, and what a history of calls must look like ----

  /** One operation of the atomic stack; None when it could not have that effect. */
  function Apply(st: seq<U32>, f: Effect): Option<seq<U32>> {
    match f
    case Pushed(v) => Some([v] + st)
    case Popped(v) => if st != [] && st[0] == v then Some(st[1..]) else None
    case FoundEmpty => if st == [] then Some(st) else None
  }

  /** Replays the effects of a log on an atomic stack; None when some effect is not one the
      atomic stack could have had at that point. */
  function Replay(log: seq<Event>): Option<seq<U32>> {
    if log == [] then Some([])
    else
      var e := log[|log| - 1];
      match Replay(log[..|log| - 1])
      case None => None
      case Some(st) =>
        if e.TakeEffect? then Apply(st, e.effect) else Some(st)
  }

  /** Where one thread is in the protocol call, effect, return. */
  datatype CallState = Quiet | Pushing(value: U32) | Popping | Done(effect: Effect) | Broken

  function CallStep(c: CallState, e: Event): CallState {
    match e
    case CallPush(_, v) => if c.Quiet? then Pushing(v) else Broken
    case CallPop(_) => if c.Quiet? then Popping else Broken
    case TakeEffect(_, f) =>
      if c.Pushing? && f == Pushed(c.value) then Done(f)
      else if c.Popping? && !f.Pushed? then Done(f)
      else Broken
    case Return(_, f) => if c == Done(f) then Quiet else Broken
    case Retry(_) => if c.Pushing? || c.Popping? then c else Broken
  }

  /** The call state of thread `t` after a log. It is Broken when `t` took effect outside a call,
      took more than one effect in a call, or returned something else than its effect. */
  function CallsOf(log: seq<Event>, t: Tid): CallState {
    if log == [] then Quiet
    else
      var e := log[|log| - 1];
      var before := CallsOf(log[..|log| - 1], t);
      if e.t == t then CallStep(before, e) else before
  }

  function Values(mem: map<Ptr, Cell>, chain: seq<Ptr>): seq<U32> {
    seq(|chain|, i requires 0 <= i < |chain| => ValueAt(mem, chain[i]))
  }

  // ---- the invariant that ties the machine to its log ----

  function Expected(s: State, pc: Pc): CallState {
    match pc
    case Idle => Quiet
    case ForceLock => Quiet
    case PushLoad(p) => Pushing(ValueAt(s.mem, p))
    case PushWrite(p, _) => Pushing(ValueAt(s.mem, p))
    case PushCas(p, _) => Pushing(ValueAt(s.mem, p))
    case PopValue(_, p) => Done(Popped(ValueAt(s.mem, p)))
    case PopClear(_, _, v) => Done(Popped(v))
    case DropClear(_, rest) => AfterRest(rest)
    case DropRelease(_, rest) => AfterRest(rest)
    case RetireLock(_, v) => Done(Popped(v))
    case RetirePush(_, v) => Done(Popped(v))
    case ScanUse(_, _, result) => AfterReclaim(result)
    case ScanPtr(_, _, result) => AfterReclaim(result)
    case Sift(_, _, result) => AfterReclaim(result)
    case Unlock(result) => AfterReclaim(result)
    case Fault => Broken
    case _ => Popping
  }

  function AfterRest(rest: Rest): CallState {
    match rest
    case ReturnNone => Done(FoundEmpty)
    case RetireNode(_, v) => Done(Popped(v))
  }

  function AfterReclaim(result: Option<U32>): CallState {
    match result
    case None => Quiet
    case Some(v) => Done(Popped(v))
  }

  ghost predicate LogInv(s: State) {
    && Replay(s.hist.log) == Some(Values(s.mem, s.hist.chain))
    && (forall t: Tid {:trigger CallsOf(s.hist.log, t)} {:trigger s.pcs[t]} :: t < |s.pcs| ==>
          CallsOf(s.hist.log, t) == Expected(s, s.pcs[t]))
  }

  lemma InitLog(threads: nat)
    ensures LogInv(Init(threads))
  {
    assert Values(map[], []) == [];
  }

  // ---- one more event ----

  lemma ReplayMore(log: seq<Event>, e: Event)
    ensures Replay(log + [e]) ==
      match Replay(log)
      case None => None
      case Some(st) =>
        if e.TakeEffect? then Apply(st, e.effect) else Some(st)
  {
    assert (log + [e])[..|log|] == log;
  }

  lemma CallsMore(log: seq<Event>, e: Event)
    ensures forall t: Tid :: CallsOf(log + [e], t) == if e.t == t then CallStep(CallsOf(log, t), e) else CallsOf(log, t)
  {
    assert (log + [e])[..|log|] == log;
  }

  /** Steps that neither link nor unlink a node. */
  ghost predicate ValuesKept(s: State, s': State, t: Tid) {
    && |s'.pcs| == |s.pcs|
    && (forall u :: 0 <= u < |s.pcs| && u != t ==> s'.pcs[u] == s.pcs[u])
    && (forall p :: p in s.mem && p in s'.mem ==> s'.mem[p].value == s.mem[p].value)
  }

  lemma OthersExpected(s: State, s': State, t: Tid, u: Tid)
    requires AllKnow(s) && AllKnow(s') && ValuesKept(s, s', t) && u < |s.pcs| && u != t
    ensures Expected(s', s'.pcs[u]) == Expected(s, s.pcs[u])
  {
    assert Knows(s, u) && Knows(s', u);
  }

  lemma ChainValues(s: State, s': State, t: Tid)
    requires Links(s.mem, s.head, s.hist.chain) && Links(s'.mem, s'.head, s'.hist.chain)
    requires ValuesKept(s, s', t) && s'.hist.chain == s.hist.chain
    ensures Values(s'.mem, s'.hist.chain) == Values(s.mem, s.hist.chain)
  {
  }

  /** A step without an event of its own. */
  lemma SilentKeepsLog(s: State, s': State, t: Tid)
    requires Inv(s) && Inv(s') && LogInv(s) && t < |s.pcs| && ValuesKept(s, s', t)
    requires s'.hist.chain == s.hist.chain && s'.hist.log == s.hist.log
    requires Expected(s', s'.pcs[t]) == Expected(s, s.pcs[t])
    ensures LogInv(s')
  {
    ChainValues(s, s', t);
    forall u: Tid | u < |s.pcs| ensures CallsOf(s'.hist.log, u) == Expected(s', s'.pcs[u]) {
      if u != t { OthersExpected(s, s', t, u); }
    }
  }

  /** A step with one event. */
  lemma EventKeepsLog(s: State, s': State, t: Tid, e: Event)
    requires Inv(s) && Inv(s') && LogInv(s) && t < |s.pcs| && ValuesKept(s, s', t)
    requires e.t == t && s'.hist.log == s.hist.log + [e]
    requires Replay(s'.hist.log) == Some(Values(s'.mem, s'.hist.chain))
    requires Expected(s', s'.pcs[t]) == CallStep(Expected(s, s.pcs[t]), e)
    ensures LogInv(s')
  {
    CallsMore(s.hist.log, e);
    forall u: Tid | u < |s.pcs| ensures CallsOf(s'.hist.log, u) == Expected(s', s'.pcs[u]) {
      if u != t { OthersExpected(s, s', t, u); }
    }
  }

  /** A step with one event that is not an effect. */
  lemma PlainEventKeepsLog(s: State, s': State, t: Tid, e: Event)
    requires Inv(s) && Inv(s') && LogInv(s) && t < |s.pcs| && ValuesKept(s, s', t)
    requires e.t == t && !e.TakeEffect? && s'.hist.log == s.hist.log + [e] && s'.hist.chain == s.hist.chain
    requires Expected(s', s'.pcs[t]) == CallStep(Expected(s, s.pcs[t]), e)
    ensures LogInv(s')
  {
    ReplayMore(s.hist.log, e);
    ChainValues(s, s', t);
    EventKeepsLog(s, s', t, e);
  }

  // ---- the three linearization points ----

  /** The winning exchange of a push puts its value on top. */
  lemma PushTakesEffect(s: State, t: Tid)
    requires Inv(s) && Enabled(s, t, Go) && s.pcs[t].PushCas? && s.head == s.pcs[t].seen
    ensures Values(DoPushCas(s, t).mem, DoPushCas(s, t).hist.chain)
         == [s.mem[s.pcs[t].node].value] + Values(s.mem, s.hist.chain)
  {
    hide Accounts, Protected, SlotsExclusive;
    assert Knows(s, t);
  }

  /** The winning exchange of a pop removes the top and installs its true successor as head. */
  lemma PopTakesEffect(s: State, t: Tid)
    requires Inv(s) && Enabled(s, t, Go) && s.pcs[t].PopCas? && s.head == s.pcs[t].top
    ensures var before := Values(s.mem, s.hist.chain);
      && before != [] && before[0] == s.mem[s.pcs[t].top].value
      && Values(DoPopCas(s, t).mem, DoPopCas(s, t).hist.chain) == before[1..]
      && DoPopCas(s, t).head == First(s.hist.chain[1..])
  {
    PopCasOwnership(s, t);
    PopCasLinks(s, t);
  }

  lemma NullMeansEmpty(mem: map<Ptr, Cell>, head: Ptr, chain: seq<Ptr>)
    requires NULL !in mem && Links(mem, head, chain)
    ensures head == NULL <==> chain == []
  {
    if chain != [] { assert chain[0] in mem; }
  }

  /** A pop that loads null does so while the stack is empty. */
  lemma EmptyTakesEffect(s: State, t: Tid)
    requires Inv(s) && Enabled(s, t, Go) && s.pcs[t].PopLoad? && s.head == NULL
    ensures Values(s.mem, s.hist.chain) == []
  {
    NullMeansEmpty(s.mem, s.head, s.hist.chain);
  }

  /** What a step does to the atomic stack: one of the three effects, or nothing. */
  function EffectOf(s: State, t: Tid, m: Move): Option<Effect>
    requires Enabled(s, t, m)
  {
    if !m.Go? then None
    else
      match s.pcs[t]
      case PushCas(node, seen) => if s.head == seen then Some(Pushed(ValueAt(s.mem, node))) else None
      case PopLoad(_) => if s.head == NULL then Some(FoundEmpty) else None
      case PopCas(_, top, _) => if s.head == top then Some(Popped(ValueAt(s.mem, top))) else None
      case _ => None
  }

  ghost predicate ChainKept(s: State, s': State) {
    s'.hist.chain == s.hist.chain && forall p :: p in s.mem && p in s'.mem ==> s'.mem[p].value == s.mem[p].value
  }

  lemma PushPopStutters(s: State, t: Tid)
    requires Enabled(s, t, Go) && IsPushOrPop(s.pcs[t]) && EffectOf(s, t, Go).None?
    ensures ChainKept(s, Step(s, t, Go))
  {
    hide WonByOthers, StampAt;
  }

  lemma RestStutters(s: State, t: Tid)
    requires Enabled(s, t, Go) && !IsPushOrPop(s.pcs[t])
    ensures ChainKept(s, Step(s, t, Go))
  {
  }

  /** Every step of every thread is one operation of the atomic stack, at one of the three linearization points, or
      leaves the stacked values as they are. */
  lemma StepSimulates(s: State, t: Tid, m: Move)
    requires Inv(s) && Enabled(s, t, m)
    ensures var before, after := Values(s.mem, s.hist.chain), Values(Step(s, t, m).mem, Step(s, t, m).hist.chain);
      match EffectOf(s, t, m)
      case None => after == before
      case Some(f) => Apply(before, f) == Some(after)
  {
    hide Accounts, Protected, SlotsExclusive, Links;
    StepKeeps(s, t, m);
    if EffectOf(s, t, m).None? {
      if m.Go? { if IsPushOrPop(s.pcs[t]) { PushPopStutters(s, t); } else { RestStutters(s, t); } }
      SameChainValues(s, Step(s, t, m));
    } else if s.pcs[t].PushCas? {
      PushTakesEffect(s, t);
      assert Knows(s, t);
    } else if s.pcs[t].PopCas? {
      PopTakesEffect(s, t);
      assert Knows(s, t);
    } else {
      EmptyTakesEffect(s, t);
    }
  }

  lemma SameChainValues(s: State, s': State)
    requires Inv(s) && Inv(s') && ChainKept(s, s')
    ensures Values(s'.mem, s'.hist.chain) == Values(s.mem, s.hist.chain)
  {
    hide Accounts, Protected, SlotsExclusive, Knows;
  }

  lemma PushCasKeepsLog(s: State, t: Tid)
    requires Inv(s) && LogInv(s) && Enabled(s, t, Go) && s.pcs[t].PushCas?
    ensures LogInv(DoPushCas(s, t))
  {
    hide Accounts, Protected, SlotsExclusive, Links;
    var s' := DoPushCas(s, t);
    PushCasKeeps(s, t);
    assert Knows(s, t);
    if s.head != s.pcs[t].seen {
      PlainEventKeepsLog(s, s', t, Retry(t));
    } else {
      PushTakesEffect(s, t);
      var v := ValueAt(s.mem, s.pcs[t].node);
      var log := s.hist.log;
      var e, r := TakeEffect(t, Pushed(v)), Return(t, Pushed(v));
      assert s'.hist.log == log + [e, r] == (log + [e]) + [r];
      ReplayMore(log, e); ReplayMore(log + [e], r);
      CallsMore(log, e); CallsMore(log + [e], r);
      forall u: Tid | u < |s.pcs| ensures CallsOf(s'.hist.log, u) == Expected(s', s'.pcs[u]) {
        if u != t { OthersExpected(s, s', t, u); }
      }
    }
  }

  lemma PopCasKeepsLog(s: State, t: Tid)
    requires Inv(s) && LogInv(s) && Enabled(s, t, Go) && s.pcs[t].PopCas?
    ensures LogInv(DoPopCas(s, t))
  {
    hide Ownership, Protected, SlotsExclusive, Links;
    var s' := DoPopCas(s, t);
    PopCasKeeps(s, t);
    assert Knows(s, t);
    if s.head != s.pcs[t].top {
      PlainEventKeepsLog(s, s', t, Retry(t));
    } else {
      PopTakesEffect(s, t);
      var e := TakeEffect(t, Popped(ValueAt(s.mem, s.pcs[t].top)));
      ReplayMore(s.hist.log, e);
      EventKeepsLog(s, s', t, e);
    }
  }

  lemma PopLoadKeepsLog(s: State, t: Tid)
    requires Inv(s) && LogInv(s) && Enabled(s, t, Go) && s.pcs[t].PopLoad?
    ensures LogInv(DoPopLoad(s, t))
  {
    var s' := DoPopLoad(s, t);
    PopLoadKeeps(s, t);
    if s.head != NULL {
      SilentKeepsLog(s, s', t);
    } else {
      EmptyTakesEffect(s, t);
      ReplayMore(s.hist.log, TakeEffect(t, FoundEmpty));
      EventKeepsLog(s, s', t, TakeEffect(t, FoundEmpty));
    }
  }

  // ---- calls, returns and everything else ----

  lemma StartKeepsLog(s: State, t: Tid, m: Move)
    requires Inv(s) && LogInv(s) && Enabled(s, t, m) && !m.Go?
    ensures LogInv(Step(s, t, m))
  {
    StepKeeps(s, t, m);
    match m
    case StartPush(v, at) => PlainEventKeepsLog(s, BeginPush(s, t, v, at), t, CallPush(t, v));
    case StartPop => PlainEventKeepsLog(s, BeginPop(s, t), t, CallPop(t));
    case StartReclaim => SilentKeepsLog(s, Goto(s, t, ForceLock), t);
  }

  lemma ReturnKeepsLog(s: State, t: Tid)
    requires Inv(s) && LogInv(s) && Enabled(s, t, Go) && (s.pcs[t].Unlock? || s.pcs[t].DropRelease?)
    ensures LogInv(Step(s, t, Go))
  {
    hide Ownership, Protected, SlotsExclusive, Links;
    StepKeeps(s, t, Go);
    var s' := Step(s, t, Go);
    match s.pcs[t]
    case Unlock(None) => SilentKeepsLog(s, s', t);
    case Unlock(Some(v)) => PlainEventKeepsLog(s, s', t, Return(t, Popped(v)));
    case DropRelease(_, ReturnNone) => PlainEventKeepsLog(s, s', t, Return(t, FoundEmpty));
    case DropRelease(_, RetireNode(_, _)) => SilentKeepsLog(s, s', t);
  }

  lemma VerifyKeepsLog(s: State, t: Tid)
    requires Inv(s) && LogInv(s) && Enabled(s, t, Go) && s.pcs[t].PopVerify?
    ensures LogInv(DoPopVerify(s, t))
  {
    PopVerifyKeeps(s, t);
    var s' := DoPopVerify(s, t);
    if s.head == s.pcs[t].top { SilentKeepsLog(s, s', t); } else { PlainEventKeepsLog(s, s', t, Retry(t)); }
  }

  lemma PushLoadKeepsLog(s: State, t: Tid)
    requires Inv(s) && LogInv(s) && Enabled(s, t, Go) && s.pcs[t].PushLoad?
    ensures LogInv(DoPushLoad(s, t))
  {
    PushLoadKeeps(s, t);
    SilentKeepsLog(s, DoPushLoad(s, t), t);
  }

  lemma PushWriteKeepsLog(s: State, t: Tid)
    requires Inv(s) && LogInv(s) && Enabled(s, t, Go) && s.pcs[t].PushWrite?
    ensures LogInv(DoPushWrite(s, t))
  {
    PushWriteKeeps(s, t);
    assert Knows(s, t);
    SilentKeepsLog(s, DoPushWrite(s, t), t);
  }

  lemma AcquireKeepsLog(s: State, t: Tid)
    requires Inv(s) && LogInv(s) && Enabled(s, t, Go) && s.pcs[t].Acquire?
    ensures LogInv(DoAcquire(s, t))
  {
    AcquireKeeps(s, t);
    SilentKeepsLog(s, DoAcquire(s, t), t);
  }

  lemma PopProtectKeepsLog(s: State, t: Tid)
    requires Inv(s) && LogInv(s) && Enabled(s, t, Go) && s.pcs[t].PopProtect?
    ensures LogInv(DoPopProtect(s, t))
  {
    PopProtectKeeps(s, t);
    SilentKeepsLog(s, DoPopProtect(s, t), t);
  }

  lemma PopNextKeepsLog(s: State, t: Tid)
    requires Inv(s) && LogInv(s) && Enabled(s, t, Go) && s.pcs[t].PopNext?
    ensures LogInv(DoPopNext(s, t))
  {
    hide Ownership, Protected, SlotsExclusive, Links;
    PopNextKeeps(s, t);
    assert Knows(s, t);
    SilentKeepsLog(s, DoPopNext(s, t), t);
  }

  lemma PopValueKeepsLog(s: State, t: Tid)
    requires Inv(s) && LogInv(s) && Enabled(s, t, Go) && s.pcs[t].PopValue?
    ensures LogInv(DoPopValue(s, t))
  {
    PopValueKeeps(s, t);
    assert Knows(s, t);
    SilentKeepsLog(s, DoPopValue(s, t), t);
  }

  lemma PopClearKeepsLog(s: State, t: Tid)
    requires Inv(s) && LogInv(s) && Enabled(s, t, Go) && s.pcs[t].PopClear?
    ensures LogInv(DoPopClear(s, t))
  {
    hide Ownership, Protected, SlotsExclusive, Links;
    PopClearKeeps(s, t);
    SilentKeepsLog(s, DoPopClear(s, t), t);
  }

  lemma DropClearKeepsLog(s: State, t: Tid)
    requires Inv(s) && LogInv(s) && Enabled(s, t, Go) && s.pcs[t].DropClear?
    ensures LogInv(DoDropClear(s, t))
  {
    DropClearKeeps(s, t);
    SilentKeepsLog(s, DoDropClear(s, t), t);
  }

  lemma RetireLockKeepsLog(s: State, t: Tid)
    requires Inv(s) && LogInv(s) && Enabled(s, t, Go) && s.pcs[t].RetireLock?
    ensures LogInv(DoRetireLock(s, t))
  {
    RetireLockKeeps(s, t);
    SilentKeepsLog(s, DoRetireLock(s, t), t);
  }

  lemma RetirePushKeepsLog(s: State, t: Tid)
    requires Inv(s) && LogInv(s) && Enabled(s, t, Go) && s.pcs[t].RetirePush?
    ensures LogInv(DoRetirePush(s, t))
  {
    hide Ownership, Protected, SlotsExclusive, Links;
    RetirePushKeeps(s, t);
    SilentKeepsLog(s, DoRetirePush(s, t), t);
  }

  lemma ForceLockKeepsLog(s: State, t: Tid)
    requires Inv(s) && LogInv(s) && Enabled(s, t, Go) && s.pcs[t].ForceLock?
    ensures LogInv(DoForceLock(s, t))
  {
    ForceLockKeeps(s, t);
    SilentKeepsLog(s, DoForceLock(s, t), t);
  }

  lemma ScanUseKeepsLog(s: State, t: Tid)
    requires Inv(s) && LogInv(s) && Enabled(s, t, Go) && s.pcs[t].ScanUse?
    ensures LogInv(DoScanUse(s, t))
  {
    ScanUseKeeps(s, t);
    SilentKeepsLog(s, DoScanUse(s, t), t);
  }

  lemma ScanPtrKeepsLog(s: State, t: Tid)
    requires Inv(s) && LogInv(s) && Enabled(s, t, Go) && s.pcs[t].ScanPtr?
    ensures LogInv(DoScanPtr(s, t))
  {
    ScanPtrKeeps(s, t);
    SilentKeepsLog(s, DoScanPtr(s, t), t);
  }

  lemma SiftKeepsLog(s: State, t: Tid)
    requires Inv(s) && LogInv(s) && Enabled(s, t, Go) && s.pcs[t].Sift?
    ensures LogInv(DoSift(s, t))
  {
    hide Ownership, Protected, SlotsExclusive, Links;
    SiftKeeps(s, t);
    SilentKeepsLog(s, DoSift(s, t), t);
  }

  lemma StepKeepsLog(s: State, t: Tid, m: Move)
    requires Inv(s) && LogInv(s) && Enabled(s, t, m)
    ensures LogInv(Step(s, t, m))
  {
    if !m.Go? {
      StartKeepsLog(s, t, m);
    } else {
      match s.pcs[t]
      case PushLoad(_) => PushLoadKeepsLog(s, t);
      case PushWrite(_, _) => PushWriteKeepsLog(s, t);
      case PushCas(_, _) => PushCasKeepsLog(s, t);
      case Acquire(_) => AcquireKeepsLog(s, t);
      case PopLoad(_) => PopLoadKeepsLog(s, t);
      case PopProtect(_, _) => PopProtectKeepsLog(s, t);
      case PopVerify(_, _) => VerifyKeepsLog(s, t);
      case PopNext(_, _) => PopNextKeepsLog(s, t);
      case PopCas(_, _, _) => PopCasKeepsLog(s, t);
      case PopValue(_, _) => PopValueKeepsLog(s, t);
      case PopClear(_, _, _) => PopClearKeepsLog(s, t);
      case DropClear(_, _) => DropClearKeepsLog(s, t);
      case DropRelease(_, _) => ReturnKeepsLog(s, t);
      case RetireLock(_, _) => RetireLockKeepsLog(s, t);
      case RetirePush(_, _) => RetirePushKeepsLog(s, t);
      case ForceLock => ForceLockKeepsLog(s, t);
      case ScanUse(_, _, _) => ScanUseKeepsLog(s, t);
      case ScanPtr(_, _, _) => ScanPtrKeepsLog(s, t);
      case Sift(_, _, _) => SiftKeepsLog(s, t);
      case Unlock(_) => ReturnKeepsLog(s, t);
    }
  }

  lemma {:induction false} RunKeepsLog(s: State, turns: seq<Turn>)
    requires Inv(s) && LogInv(s) && Legal(s, turns)
    ensures Inv(Exec(s, turns)) && LogInv(Exec(s, turns))
  {
    RunKeeps(s, turns);
    if turns != [] {
      var n := |turns| - 1;
      RunKeepsLog(s, turns[..n]);
      StepKeepsLog(Exec(s, turns[..n]), turns[n].t, turns[n].m);
    }
  }

  lemma NeverBroken(s: State, t: Tid)
    requires Inv(s) && LogInv(s) && t < |s.pcs|
    ensures !CallsOf(s.hist.log, t).Broken?
  {
    assert Knows(s, t);
  }

  /** Linearizability: in every run of any number of threads, the effects, in the order they
      happen, are a run of the atomic stack that ends with the values linked from head; every call
      takes exactly one effect between its start and its return, and returns what that effect gave. */
  lemma RunRefinesAtomicStack(threads: nat, turns: seq<Turn>)
    requires Legal(Init(threads), turns)
    ensures var s := Exec(Init(threads), turns);
      && Replay(s.hist.log) == Some(Values(s.mem, s.hist.chain))
      && Links(s.mem, s.head, s.hist.chain)
      && forall t: Tid :: t < threads ==> !CallsOf(s.hist.log, t).Broken?
  {
    InitInv(threads);
    InitLog(threads);
    RunKeepsLog(Init(threads), turns);
    RunThreads(Init(threads), turns);
    var s := Exec(Init(threads), turns);
    forall t: Tid | t < threads ensures !CallsOf(s.hist.log, t).Broken? { NeverBroken(s, t); }
  }

  lemma {:induction false} RunThreads(s: State, turns: seq<Turn>)
    requires Legal(s, turns)
    ensures |Exec(s, turns).pcs| == |s.pcs|
  {
    if turns != [] {
      var n := |turns| - 1;
      RunThreads(s, turns[..n]);
      OnlyOneMoves(Exec(s, turns[..n]), turns[n].t, turns[n].m);
    }
  }

  /** The chain is no invention of the history: it is the only null-terminated list from head. */
  lemma {:induction false} ChainIsDetermined(mem: map<Ptr, Cell>, head: Ptr, c: seq<Ptr>, d: seq<Ptr>)
    requires NULL !in mem && Links(mem, head, c) && Links(mem, head, d)
    ensures c == d
    decreases |c|
  {
    NullMeansEmpty(mem, head, c);
    NullMeansEmpty(mem, head, d);
    if c != [] {
      var next := mem[head].next;
      assert Links(mem, next, c[1..]) by { LinksTail(mem, head, c); }
      assert Links(mem, next, d[1..]) by { LinksTail(mem, head, d); }
      ChainIsDetermined(mem, next, c[1..], d[1..]);
      assert c == [c[0]] + c[1..] && d == [d[0]] + d[1..];
    }
  }

  // ---- conservation ----

  function PushedValues(log: seq<Event>): multiset<U32> {
    if log == [] then multiset{}
    else
      var e := log[|log| - 1];
      PushedValues(log[..|log| - 1]) +
      (if e.TakeEffect? && e.effect.Pushed? then multiset{e.effect.value} else multiset{})
  }

  function PoppedValues(log: seq<Event>): multiset<U32> {
    if log == [] then multiset{}
    else
      var e := log[|log| - 1];
      PoppedValues(log[..|log| - 1]) +
      (if e.TakeEffect? && e.effect.Popped? then multiset{e.effect.value} else multiset{})
  }

  /** No value is lost, invented or popped twice: pushed is popped plus still stacked. */
  lemma {:induction false} ReplayConserves(log: seq<Event>)
    requires Replay(log).Some?
    ensures PushedValues(log) == PoppedValues(log) + multiset(Replay(log).value)
  {
    if log != [] {
      var n := |log| - 1;
      ReplayConserves(log[..n]);
      var st := Replay(log[..n]).value;
      if log[n].TakeEffect? && log[n].effect.Popped? {
        assert st == [st[0]] + st[1..];
      }
    }
  }

  lemma RunConserves(threads: nat, turns: seq<Turn>)
    requires Legal(Init(threads), turns)
    ensures var s := Exec(Init(threads), turns);
      PushedValues(s.hist.log) == PoppedValues(s.hist.log) + multiset(Values(s.mem, s.hist.chain))
  {
    RunRefinesAtomicStack(threads, turns);
    ReplayConserves(Exec(Init(threads), turns).hist.log);
  }
}

/** The stack without hazard pointers. A pop frees its node at once, so another pop may read `next`
    through a pointer to freed memory; that read yields an arbitrary value, chosen by the move Stale. */
module PlainTreiber {
  import opened Common
  import opened HazardStack
  import opened HazardInvariant
  import opened HazardLinear

  datatype PlainPc =
    | Resting
    | Crashed                                    // freed an address that is not allocated
    | LoadHead(node: Ptr)
    | LinkNode(node: Ptr, seen: Ptr)
    | SwapHead(node: Ptr, seen: Ptr)
    | PopStart
    | PopRead(top: Ptr)
    | PopSwap(top: Ptr, next: Ptr)
    | PopFree(top: Ptr)

  datatype PlainMove = CallPushAt(value: U32, at: Ptr) | CallPopNow | Continue | Stale(next: Ptr)
  datatype PlainTurn = PlainTurn(t: Tid, m: PlainMove)

  /** `owner`, `chain` and `log` are history variables. */
  datatype Plain = Plain(
    head: Ptr, mem: map<Ptr, Cell>, pcs: seq<PlainPc>, owner: map<Ptr, Owner>, chain: seq<Ptr>, log: seq<Event>)

  function Start(threads: nat): Plain {
    Plain(NULL, map[], seq(threads, _ => Resting), map[], [], [])
  }

  predicate May(s: Plain, t: Tid, m: PlainMove) {
    t < |s.pcs| &&
    match m
    case CallPushAt(_, at) => s.pcs[t].Resting? && at != NULL && at !in s.mem
    case CallPopNow => s.pcs[t].Resting?
    case Continue =>
      && !s.pcs[t].Resting? && !s.pcs[t].Crashed?
      && (s.pcs[t].PopRead? ==> s.pcs[t].top in s.mem)
    case Stale(_) => s.pcs[t].PopRead? && s.pcs[t].top !in s.mem
  }

  function At(s: Plain, t: Tid, pc: PlainPc): Plain
    requires t < |s.pcs|
  {
    s.(pcs := s.pcs[t := pc])
  }

  function Log(s: Plain, es: seq<Event>): Plain {
    s.(log := s.log + es)
  }

  function Swapped(s: Plain, t: Tid): Plain
    requires t < |s.pcs| && s.pcs[t].SwapHead?
  {
    var SwapHead(node, seen) := s.pcs[t];
    var v := ValueAt(s.mem, node);
    if s.head == seen
    then Log(At(s.(head := node, owner := s.owner[node := Linked], chain := [node] + s.chain), t, Resting),
             [TakeEffect(t, Pushed(v)), Return(t, Pushed(v))])
    else Log(At(s, t, LoadHead(node)), [Retry(t)])
  }

  function Taken(s: Plain, t: Tid): Plain
    requires t < |s.pcs| && s.pcs[t].PopSwap?
  {
    var PopSwap(top, next) := s.pcs[t];
    if s.head == top
    then Log(At(s.(head := next, owner := s.owner[top := Removed(t)], chain := if s.chain == [] then [] else s.chain[1..]),
                t, PopFree(top)),
             [TakeEffect(t, Popped(ValueAt(s.mem, top)))])
    else Log(At(s, t, PopStart), [Retry(t)])
  }

  function FreedAndReturned(s: Plain, t: Tid): Plain
    requires t < |s.pcs| && s.pcs[t].PopFree?
  {
    var top := s.pcs[t].top;
    if top in s.mem
    then Log(At(s.(mem := s.mem - {top}, owner := s.owner - {top}), t, Resting), [Return(t, Popped(s.mem[top].value))])
    else At(s, t, Crashed)
  }

  function Next(s: Plain, t: Tid, m: PlainMove): (s': Plain)
    requires May(s, t, m)
    ensures |s'.pcs| == |s.pcs|
  {
    match m
    case CallPushAt(v, at) =>
      Log(At(s.(mem := s.mem[at := Cell(v, NULL, 0)], owner := s.owner[at := Private(t)]), t, LoadHead(at)),
          [CallPush(t, v)])
    case CallPopNow => Log(At(s, t, PopStart), [CallPop(t)])
    case Stale(next) => At(s, t, PopSwap(s.pcs[t].top, next))
    case Continue =>
      match s.pcs[t]
      case LoadHead(node) => At(s, t, LinkNode(node, s.head))
      case LinkNode(node, seen) =>
        if node in s.mem
        then At(s.(mem := s.mem[node := s.mem[node].(next := seen)]), t, SwapHead(node, seen))
        else At(s, t, Crashed)
      case SwapHead(_, _) => Swapped(s, t)
      case PopStart =>
        if s.head == NULL
        then Log(At(s, t, Resting), [TakeEffect(t, FoundEmpty), Return(t, FoundEmpty)])
        else At(s, t, PopRead(s.head))
      case PopRead(top) => At(s, t, PopSwap(top, s.mem[top].next))
      case PopSwap(_, _) => Taken(s, t)
      case PopFree(_) => FreedAndReturned(s, t)
  }

  predicate Runs(s: Plain, turns: seq<PlainTurn>)
    decreases |turns|, 0
  {
    turns == [] ||
    (var n := |turns| - 1; Runs(s, turns[..n]) && May(After(s, turns[..n]), turns[n].t, turns[n].m))
  }

  function After(s: Plain, turns: seq<PlainTurn>): Plain
    requires Runs(s, turns)
    decreases |turns|, 1
  {
    if turns == [] then s
    else var n := |turns| - 1; Next(After(s, turns[..n]), turns[n].t, turns[n].m)
  }

  /** Nobody ever waits. A thread between calls may start either one, and be handed any address not allocated at the
      moment; in the middle of a call it can go on, and if the node it is to read has been freed, what it reads may be
      anything. */
  lemma NobodyWaits(s: Plain, t: Tid, v: U32, at: Ptr)
    requires t < |s.pcs|
    ensures May(s, t, CallPopNow) <==> s.pcs[t].Resting?
    ensures May(s, t, CallPushAt(v, at)) <==> s.pcs[t].Resting? && at != NULL && at !in s.mem
    ensures !s.pcs[t].Resting? && !s.pcs[t].Crashed? ==>
      if s.pcs[t].PopRead? && s.pcs[t].top !in s.mem
      then May(s, t, Stale(at)) && Next(s, t, Stale(at)).pcs[t] == PopSwap(s.pcs[t].top, at)
      else May(s, t, Continue)
    ensures (s.pcs[t].LinkNode? && s.pcs[t].node !in s.mem) || (s.pcs[t].PopFree? && s.pcs[t].top !in s.mem) ==>
      Next(s, t, Continue).pcs[t].Crashed?
  {
  }

  /** The grain of the machine: each step makes one access to head or to a node. */
  lemma PlainFlow(s: Plain, t: Tid)
    requires t < |s.pcs| && May(s, t, Continue)
    ensures var pc, s' := s.pcs[t], Next(s, t, Continue);
      && (pc.LoadHead? ==> s'.pcs[t] == LinkNode(pc.node, s.head) && s'.mem == s.mem)
      && (pc.LinkNode? && pc.node in s.mem ==>
            s'.pcs[t] == SwapHead(pc.node, pc.seen) && s'.mem == s.mem[pc.node := s.mem[pc.node].(next := pc.seen)])
      && (pc.SwapHead? ==>
            if s.head == pc.seen then s'.head == pc.node && s'.pcs[t] == Resting
            else s'.head == s.head && s'.pcs[t] == LoadHead(pc.node))
      && (pc.PopStart? ==> s'.pcs[t] == if s.head == NULL then Resting else PopRead(s.head))
      && (pc.PopRead? && pc.top in s.mem ==> s'.pcs[t] == PopSwap(pc.top, s.mem[pc.top].next))
      && (pc.PopSwap? ==>
            if s.head == pc.top then s'.head == pc.next && s'.pcs[t] == PopFree(pc.top) && s'.mem == s.mem
            else s'.head == s.head && s'.pcs[t] == PopStart)
      && (pc.PopFree? && pc.top in s.mem ==> s'.pcs[t] == Resting && s'.mem == s.mem - {pc.top})
  {
    hide ValueAt;
  }

  // ---- when an address may be handed out again ----

  /** The node a pop has loaded and not unlinked yet. */
  function HeldTop(pc: PlainPc): Option<Ptr> {
    match pc
    case PopRead(top) => Some(top)
    case PopSwap(top, _) => Some(top)
    case _ => None
  }

  /** The head such a pop may install if the address it holds is handed out now: what it has read, or the null pointer
      of the new node. */
  function Expects(pc: PlainPc): Ptr {
    match pc
    case PopSwap(_, next) => next
    case _ => NULL
  }

  /** Handing out `at` does no harm: no pop holds it, or there is just one other thread and that would install the
      head there is. */
  predicate Harmless(s: Plain, at: Ptr) {
    forall u :: 0 <= u < |s.pcs| && HeldTop(s.pcs[u]) == Some(at) ==> |s.pcs| == 2 && Expects(s.pcs[u]) == s.head
  }

  /** From turn `from` on the allocator hands out only harmless addresses. */
  predicate Guarded(s: Plain, turns: seq<PlainTurn>, from: nat)
    requires Runs(s, turns)
  {
    |turns| <= from ||
    (var n := |turns| - 1;
     Guarded(s, turns[..n], from) && (turns[n].m.CallPushAt? ==> Harmless(After(s, turns[..n]), turns[n].m.at)))
  }

  // ---- the invariant ----

  ghost predicate Mine(s: Plain, p: Ptr, o: Owner) {
    p in s.mem && p in s.owner && s.owner[p] == o
  }

  ghost predicate Published(s: Plain, p: Ptr) {
    p in s.mem && p in s.owner && !s.owner[p].Private?
  }

  ghost predicate Sure(s: Plain, t: Tid)
    requires t < |s.pcs|
  {
    match s.pcs[t]
    case Crashed => false
    case LoadHead(p) => Mine(s, p, Private(t))
    case LinkNode(p, _) => Mine(s, p, Private(t))
    case SwapHead(p, seen) => Mine(s, p, Private(t)) && s.mem[p].next == seen
    case PopRead(top) => top != NULL
    case PopSwap(top, next) => top != NULL && (Published(s, top) ==> s.mem[top].next == next)
    case PopFree(top) => Mine(s, top, Removed(t))
    case _ => true
  }

  ghost predicate Books(s: Plain) {
    && Ledger(s.mem, s.owner, s.chain)
    && NoDups(s.chain)
    && Links(s.mem, s.head, s.chain)
  }

  ghost predicate Ledger(mem: map<Ptr, Cell>, owner: map<Ptr, Owner>, chain: seq<Ptr>) {
    && NULL !in mem && owner.Keys == mem.Keys
    && (forall p :: p in chain <==> p in owner && owner[p] == Linked)
  }

  ghost predicate AllSure(s: Plain) {
    forall t {:trigger Sure(s, t)} {:trigger s.pcs[t]} :: 0 <= t < |s.pcs| ==> Sure(s, t)
  }

  function Due(s: Plain, pc: PlainPc): CallState {
    match pc
    case Resting => Quiet
    case Crashed => Broken
    case LoadHead(p) => Pushing(ValueAt(s.mem, p))
    case LinkNode(p, _) => Pushing(ValueAt(s.mem, p))
    case SwapHead(p, _) => Pushing(ValueAt(s.mem, p))
    case PopFree(p) => Done(Popped(ValueAt(s.mem, p)))
    case _ => Popping
  }

  ghost predicate Logged(s: Plain) {
    && Replay(s.log) == Some(Values(s.mem, s.chain))
    && (forall t: Tid {:trigger CallsOf(s.log, t)} {:trigger s.pcs[t]} :: t < |s.pcs| ==>
          CallsOf(s.log, t) == Due(s, s.pcs[t]))
  }

  ghost predicate PlainInv(s: Plain) {
    Books(s) && AllSure(s) && Logged(s)
  }

  /** Whoever else holds `p` has read `next` in it. */
  ghost predicate Fits(s: Plain, t: Tid, p: Ptr, next: Ptr) {
    forall u {:trigger s.pcs[u]} ::
      0 <= u < |s.pcs| && u != t && s.pcs[u].PopSwap? && s.pcs[u].top == p ==> s.pcs[u].next == next
  }

  /** What the other threads rely on: their own nodes, and published nodes as long as they live. */
  ghost predicate OthersSame(s: Plain, s': Plain, t: Tid) {
    && |s'.pcs| == |s.pcs|
    && (forall u :: 0 <= u < |s.pcs| && u != t ==> s'.pcs[u] == s.pcs[u])
    && (forall p: Ptr, u: Tid :: u != t && (Mine(s, p, Private(u)) || Mine(s, p, Removed(u))) ==>
          Mine(s', p, s.owner[p]) && s'.mem[p] == s.mem[p])
    && (forall p :: Published(s', p) ==>
          (Published(s, p) && s'.mem[p] == s.mem[p]) || Fits(s, t, p, s'.mem[p].next))
    && (forall p :: Published(s, p) && p in s'.mem ==> s'.mem[p] == s.mem[p])
  }

  lemma OthersSure(s: Plain, s': Plain, t: Tid)
    requires AllSure(s) && OthersSame(s, s', t)
    requires t < |s.pcs| ==> Sure(s', t)
    ensures AllSure(s')
    ensures forall u: Tid :: u < |s.pcs| && u != t ==> Due(s', s'.pcs[u]) == Due(s, s.pcs[u])
  {
    forall u: Tid | u < |s.pcs| && u != t ensures Sure(s', u) && Due(s', s'.pcs[u]) == Due(s, s.pcs[u]) {
      assert Sure(s, u);
    }
  }

  // ---- one step, by the shape of what it does to the log ----

  lemma SameValues(s: Plain, s': Plain, t: Tid)
    requires Books(s) && Books(s') && OthersSame(s, s', t) && s'.chain == s.chain
    ensures Values(s'.mem, s'.chain) == Values(s.mem, s.chain)
  {
    hide Links, NoDups;
    forall k | 0 <= k < |s.chain| ensures ValueAt(s'.mem, s.chain[k]) == ValueAt(s.mem, s.chain[k]) {
      assert s.chain[k] in s.chain && s.chain[k] in s'.chain;
    }
  }

  /** A step with one event that is not an effect, and the same chain. */
  lemma PlainEvent(s: Plain, s': Plain, t: Tid, es: seq<Event>)
    requires PlainInv(s) && t < |s.pcs| && OthersSame(s, s', t) && Books(s') && Sure(s', t)
    requires s'.chain == s.chain && s'.log == s.log + es && |es| <= 1
    requires es != [] ==> es[0].t == t && !es[0].TakeEffect? && Due(s', s'.pcs[t]) == CallStep(Due(s, s.pcs[t]), es[0])
    requires es == [] ==> Due(s', s'.pcs[t]) == Due(s, s.pcs[t])
    ensures PlainInv(s')
  {
    hide Books, Sure, Due, Values, Replay, CallsOf, CallStep;
    OthersSure(s, s', t);
    SameValues(s, s', t);
    if es == [] {
      assert s'.log == s.log;
    } else {
      assert es == [es[0]];
      ReplayMore(s.log, es[0]);
      CallsMore(s.log, es[0]);
    }
    forall u: Tid | u < |s.pcs| ensures CallsOf(s'.log, u) == Due(s', s'.pcs[u]) {
      assert CallsOf(s.log, u) == Due(s, s.pcs[u]);
    }
  }

  /** A step that changes nothing but a program counter and the log. */
  lemma LocalKeeps(s: Plain, s': Plain, t: Tid, es: seq<Event>)
    requires PlainInv(s) && t < |s.pcs| && |s'.pcs| == |s.pcs|
    requires s' == s.(pcs := s.pcs[t := s'.pcs[t]], log := s.log + es) && |es| <= 1
    requires es != [] ==> es[0].t == t && !es[0].TakeEffect? && Due(s', s'.pcs[t]) == CallStep(Due(s, s.pcs[t]), es[0])
    requires es == [] ==> Due(s', s'.pcs[t]) == Due(s, s.pcs[t])
    requires Sure(s', t)
    ensures PlainInv(s')
  {
    hide Due, Values, Replay, CallsOf, CallStep, Links, NoDups, Ledger, Sure, AllSure, Logged;
    PlainEvent(s, s', t, es);
  }

  /** A step that also writes a node not published yet, of thread `t` or new. */
  ghost predicate NodeStep(s: Plain, s': Plain, t: Tid, p: Ptr, c: Cell) {
    && t < |s.pcs| && |s'.pcs| == |s.pcs| && s'.pcs == s.pcs[t := s'.pcs[t]]
    && s'.mem == s.mem[p := c] && s'.owner == s.owner[p := Private(t)]
    && s'.head == s.head && s'.chain == s.chain && p != NULL
    && (p !in s.mem || Mine(s, p, Private(t)))
  }

  lemma NodeBooks(s: Plain, s': Plain, t: Tid, p: Ptr, c: Cell)
    requires Books(s) && NodeStep(s, s', t, p, c)
    ensures Books(s')
  {
    hide Links, NoDups;
    assert p !in s.chain;
    LinksElsewhere(s.mem, s'.mem, s.head, s.chain);
  }

  lemma NodeOthers(s: Plain, s': Plain, t: Tid, p: Ptr, c: Cell)
    requires Books(s) && NodeStep(s, s', t, p, c)
    ensures OthersSame(s, s', t)
  {
    hide Links, NoDups, Fits;
    forall q | Published(s', q) ensures Published(s, q) && s'.mem[q] == s.mem[q] { assert q != p; }
    forall q | Published(s, q) ensures s'.mem[q] == s.mem[q] { assert q != p; }
    forall q: Ptr, u: Tid | u != t && (Mine(s, q, Private(u)) || Mine(s, q, Removed(u)))
      ensures Mine(s', q, s.owner[q]) && s'.mem[q] == s.mem[q]
    {
      assert q != p;
    }
  }

  lemma CallPushKeeps(s: Plain, t: Tid, m: PlainMove)
    requires PlainInv(s) && May(s, t, m) && m.CallPushAt?
    ensures PlainInv(Next(s, t, m))
  {
    hide Books, AllSure, Logged, OthersSame;
    var s' := Next(s, t, m);
    NodeBooks(s, s', t, m.at, Cell(m.value, NULL, 0));
    NodeOthers(s, s', t, m.at, Cell(m.value, NULL, 0));
    PlainEvent(s, s', t, [CallPush(t, m.value)]);
  }

  lemma CallPopKeeps(s: Plain, t: Tid)
    requires PlainInv(s) && May(s, t, CallPopNow)
    ensures PlainInv(Next(s, t, CallPopNow))
  {
    hide PlainInv;
    LocalKeeps(s, Next(s, t, CallPopNow), t, [CallPop(t)]);
  }

  lemma LoadKeeps(s: Plain, t: Tid)
    requires PlainInv(s) && May(s, t, Continue) && s.pcs[t].LoadHead?
    ensures PlainInv(Next(s, t, Continue))
  {
    hide Books, Logged;
    var s' := Next(s, t, Continue);
    assert Sure(s, t);
    assert s'.log == s.log + [];
    LocalKeeps(s, s', t, []);
  }

  lemma LinkKeeps(s: Plain, t: Tid)
    requires PlainInv(s) && May(s, t, Continue) && s.pcs[t].LinkNode?
    ensures PlainInv(Next(s, t, Continue))
  {
    hide Links, NoDups, Logged, OthersSame;
    var s' := Next(s, t, Continue);
    var LinkNode(p, seen) := s.pcs[t];
    assert Sure(s, t);
    assert s'.owner == s.owner[p := Private(t)];
    assert s'.log == s.log + [];
    NodeBooks(s, s', t, p, s.mem[p].(next := seen));
    NodeOthers(s, s', t, p, s.mem[p].(next := seen));
    hide Books, AllSure;
    PlainEvent(s, s', t, []);
  }

  lemma ReadKeeps(s: Plain, t: Tid, m: PlainMove)
    requires PlainInv(s) && May(s, t, m) && s.pcs[t].PopRead? && (m.Continue? || m.Stale?)
    ensures PlainInv(Next(s, t, m))
  {
    hide Books, Logged;
    var s' := Next(s, t, m);
    assert Sure(s, t);
    assert s'.log == s.log + [];
    LocalKeeps(s, s', t, []);
  }

  /** The list does not depend on nodes that are not on it. */
  lemma LinksElsewhere(mem: map<Ptr, Cell>, mem': map<Ptr, Cell>, head: Ptr, chain: seq<Ptr>)
    requires Links(mem, head, chain)
    requires forall q :: q in chain && q in mem ==> q in mem' && mem'[q] == mem[q]
    ensures Links(mem', head, chain)
  {
    forall k | 0 <= k < |chain| ensures chain[k] in mem' && mem'[chain[k]].next == First(chain[k + 1..]) {
      assert chain[k] in chain;
    }
  }

  /** Freeing the node thread `t` has unlinked. */
  lemma FreeBooks(s: Plain, t: Tid)
    requires PlainInv(s) && May(s, t, Continue) && s.pcs[t].PopFree?
    ensures Books(FreedAndReturned(s, t))
  {
    hide Logged, Replay, CallsOf, Values, Links, NoDups;
    var s', p := FreedAndReturned(s, t), s.pcs[t].top;
    assert Sure(s, t) && p !in s.chain;
    LinksElsewhere(s.mem, s'.mem, s.head, s.chain);
  }

  lemma FreeKeepsPlain(s: Plain, t: Tid)
    requires PlainInv(s) && May(s, t, Continue) && s.pcs[t].PopFree?
    ensures PlainInv(FreedAndReturned(s, t))
  {
    hide Replay, CallsOf, Values, Links, NoDups;
    var s', p := FreedAndReturned(s, t), s.pcs[t].top;
    assert Sure(s, t);
    FreeBooks(s, t);
    PlainEvent(s, s', t, [Return(t, Popped(s.mem[p].value))]);
  }

  lemma HeadIsLinked(s: Plain)
    requires Books(s) && s.head != NULL
    ensures Mine(s, s.head, Linked)
  {
    NullMeansEmpty(s.mem, s.head, s.chain);
    assert s.chain[0] in s.chain;
  }

  /** A step with an effect, which the atomic stack must be able to have, and perhaps the return of the call. */
  lemma EffectKeeps(s: Plain, s': Plain, t: Tid, e: Event, es: seq<Event>)
    requires PlainInv(s) && t < |s.pcs| && OthersSame(s, s', t) && Books(s') && Sure(s', t)
    requires e.t == t && s'.log == (s.log + [e]) + es && |es| <= 1 && (es != [] ==> es[0].t == t && !es[0].TakeEffect?)
    requires Replay(s.log + [e]) == Some(Values(s'.mem, s'.chain))
    requires var c := CallStep(Due(s, s.pcs[t]), e); Due(s', s'.pcs[t]) == if es == [] then c else CallStep(c, es[0])
    ensures PlainInv(s')
  {
    hide Books, Sure, Due, Values, Replay, CallsOf, CallStep;
    OthersSure(s, s', t);
    CallsMore(s.log, e);
    if es == [] {
      assert s'.log == s.log + [e];
    } else {
      assert es == [es[0]];
      ReplayMore(s.log + [e], es[0]);
      CallsMore(s.log + [e], es[0]);
    }
    forall u: Tid | u < |s.pcs| ensures CallsOf(s'.log, u) == Due(s', s'.pcs[u]) {
      assert CallsOf(s.log, u) == Due(s, s.pcs[u]);
    }
  }

  /** The stack is found empty. */
  lemma NullKeeps(s: Plain, t: Tid)
    requires PlainInv(s) && May(s, t, Continue) && s.pcs[t].PopStart? && s.head == NULL
    ensures PlainInv(Next(s, t, Continue))
  {
    var s' := Next(s, t, Continue);
    NullMeansEmpty(s.mem, s.head, s.chain);
    hide Links, NoDups, CallsOf, Ledger;
    var e, r := TakeEffect(t, FoundEmpty), Return(t, FoundEmpty);
    assert s'.log == (s.log + [e]) + [r];
    ReplayMore(s.log, e);
    hide Replay;
    EffectKeeps(s, s', t, e, [r]);
  }

  lemma EmptyKeeps(s: Plain, t: Tid)
    requires PlainInv(s) && May(s, t, Continue) && s.pcs[t].PopStart?
    ensures PlainInv(Next(s, t, Continue))
  {
    if s.head != NULL {
      HeadIsLinked(s);
      hide Links, NoDups, Logged;
      var s' := Next(s, t, Continue);
      assert s'.log == s.log + [];
      LocalKeeps(s, s', t, []);
    } else {
      NullKeeps(s, t);
    }
  }

  lemma PushBooks(s: Plain, t: Tid)
    requires PlainInv(s) && May(s, t, Continue) && s.pcs[t].SwapHead? && s.head == s.pcs[t].seen
    ensures Books(Swapped(s, t))
  {
    hide Links, NoDups, Logged;
    assert Sure(s, t);
    var p := s.pcs[t].node;
    OneMoreOnTop(s.chain, p);
    LinksCons(s.mem, s.head, s.chain, p);
  }

  lemma OneMoreOnTop(chain: seq<Ptr>, p: Ptr)
    requires NoDups(chain) && p !in chain
    ensures NoDups([p] + chain) && forall q :: q in [p] + chain <==> q == p || q in chain
  {
  }

  /** Thread `t` publishes its own node, or takes one that is linked: nobody else's node is touched. */
  lemma OwnerOthers(s: Plain, s': Plain, t: Tid, p: Ptr, o: Owner)
    requires t < |s.pcs| && |s'.pcs| == |s.pcs| && s'.pcs == s.pcs[t := s'.pcs[t]]
    requires s'.mem == s.mem && s'.owner == s.owner[p := o] && !o.Private? && s.owner.Keys == s.mem.Keys
    requires (Mine(s, p, Private(t)) && Fits(s, t, p, s.mem[p].next)) || Mine(s, p, Linked)
    ensures OthersSame(s, s', t)
  {
    hide Fits;
    forall q: Ptr, u: Tid | u != t && (Mine(s, q, Private(u)) || Mine(s, q, Removed(u)))
      ensures Mine(s', q, s.owner[q]) && s'.mem[q] == s.mem[q]
    {
      assert q != p;
    }
    forall q | Published(s', q) ensures Published(s, q) || Fits(s, t, q, s'.mem[q].next) {
      if q != p { assert Published(s, q); }
    }
  }

  /** The winning exchange of a push. A pop that holds the address must have read the successor the node now has. */
  lemma SwapWins(s: Plain, t: Tid)
    requires PlainInv(s) && May(s, t, Continue) && s.pcs[t].SwapHead? && s.head == s.pcs[t].seen
    requires Fits(s, t, s.pcs[t].node, s.head)
    ensures PlainInv(Swapped(s, t))
  {
    hide Links, NoDups, OthersSame, CallsOf;
    var s', p := Swapped(s, t), s.pcs[t].node;
    assert Sure(s, t);
    OwnerOthers(s, s', t, p, Linked);
    PushBooks(s, t);
    hide Books, AllSure;
    var v := ValueAt(s.mem, p);
    var e, r := TakeEffect(t, Pushed(v)), Return(t, Pushed(v));
    assert s'.log == (s.log + [e]) + [r];
    ReplayMore(s.log, e);
    hide Replay;
    assert Values(s'.mem, s'.chain) == [v] + Values(s.mem, s.chain);
    EffectKeeps(s, s', t, e, [r]);
  }

  lemma SwapKeeps(s: Plain, t: Tid)
    requires PlainInv(s) && May(s, t, Continue) && s.pcs[t].SwapHead?
    requires s.head == s.pcs[t].seen ==> Fits(s, t, s.pcs[t].node, s.head)
    ensures PlainInv(Swapped(s, t))
  {
    hide Books, Logged;
    if s.head != s.pcs[t].seen {
      assert Sure(s, t);
      LocalKeeps(s, Swapped(s, t), t, [Retry(t)]);
    } else {
      SwapWins(s, t);
    }
  }

  /** A lost node cannot be head, so an exchange that succeeds used the true successor. */
  lemma TakeBooks(s: Plain, t: Tid)
    requires PlainInv(s) && May(s, t, Continue) && s.pcs[t].PopSwap? && s.head == s.pcs[t].top
    ensures s.chain != [] && s.chain[0] == s.head && s.head in s.mem && s.mem[s.head].next == s.pcs[t].next
    ensures Books(Taken(s, t))
  {
    assert Sure(s, t);
    var c, s' := s.chain, Taken(s, t);
    NullMeansEmpty(s.mem, s.head, c);
    LinksTail(s.mem, s.head, c);
    forall q ensures q in c[1..] <==> q in c && q != c[0] {}
  }

  lemma TakeReplays(s: Plain, t: Tid)
    requires PlainInv(s) && May(s, t, Continue) && s.pcs[t].PopSwap? && s.head == s.pcs[t].top
    requires s.chain != [] && s.chain[0] == s.head
    ensures Replay(s.log + [TakeEffect(t, Popped(ValueAt(s.mem, s.head)))]) == Some(Values(s.mem, s.chain[1..]))
  {
    hide Books, AllSure, CallsOf;
    ReplayMore(s.log, TakeEffect(t, Popped(ValueAt(s.mem, s.head))));
    hide Replay;
    assert Values(s.mem, s.chain)[1..] == Values(s.mem, s.chain[1..]);
  }

  /** The winning exchange of a pop. */
  lemma TakeWins(s: Plain, t: Tid)
    requires PlainInv(s) && May(s, t, Continue) && s.pcs[t].PopSwap? && s.head == s.pcs[t].top
    ensures PlainInv(Taken(s, t))
  {
    hide OthersSame, AllSure, CallsOf, Replay, Values, Links, NoDups, Logged;
    var s' := Taken(s, t);
    TakeBooks(s, t);
    HeadIsLinked(s);
    OwnerOthers(s, s', t, s.head, Removed(t));
    TakeReplays(s, t);
    hide Books;
    var e := TakeEffect(t, Popped(ValueAt(s.mem, s.head)));
    assert s'.log == (s.log + [e]) + [];
    EffectKeeps(s, s', t, e, []);
  }

  lemma TakeKeeps(s: Plain, t: Tid)
    requires PlainInv(s) && May(s, t, Continue) && s.pcs[t].PopSwap?
    ensures PlainInv(Taken(s, t))
  {
    hide Books, Logged;
    if s.head != s.pcs[t].top {
      LocalKeeps(s, Taken(s, t), t, [Retry(t)]);
    } else {
      TakeWins(s, t);
    }
  }

  /** The node thread `t` is about to publish, if any, suits the pops that hold its address. */
  ghost predicate Suits(s: Plain, t: Tid)
    requires t < |s.pcs|
  {
    s.pcs[t].SwapHead? && s.head == s.pcs[t].seen ==> Fits(s, t, s.pcs[t].node, s.head)
  }

  lemma NextKeeps(s: Plain, t: Tid, m: PlainMove)
    requires PlainInv(s) && May(s, t, m) && Suits(s, t)
    ensures PlainInv(Next(s, t, m))
  {
    hide PlainInv;
    if m.CallPushAt? { CallPushKeeps(s, t, m); }
    else if m.CallPopNow? { CallPopKeeps(s, t); }
    else if s.pcs[t].PopRead? { ReadKeeps(s, t, m); }
    else if s.pcs[t].LoadHead? { LoadKeeps(s, t); }
    else if s.pcs[t].LinkNode? { LinkKeeps(s, t); }
    else if s.pcs[t].SwapHead? { SwapKeeps(s, t); }
    else if s.pcs[t].PopStart? { EmptyKeeps(s, t); }
    else if s.pcs[t].PopSwap? { TakeKeeps(s, t); }
    else { FreeKeepsPlain(s, t); }
  }

  // ---- why guarded runs stay calm ----

  function NodeOf(pc: PlainPc): Option<Ptr> {
    match pc
    case LoadHead(p) => Some(p)
    case LinkNode(p, _) => Some(p)
    case SwapHead(p, _) => Some(p)
    case _ => None
  }

  /** A node that is not linked belongs to the push or the pop at it. */
  ghost predicate Accounted(s: Plain) {
    forall p :: p in s.owner ==>
      && (s.owner[p].Private? ==> s.owner[p].t < |s.pcs| && NodeOf(s.pcs[s.owner[p].t]) == Some(p))
      && (s.owner[p].Removed? ==> s.owner[p].t < |s.pcs| && s.pcs[s.owner[p].t] == PopFree(p))
      && !s.owner[p].Retired?
  }

  /** Of the two threads there are, `u` pops the address that `x` pushes, and `x` will link it to what `u` expects. */
  ghost predicate Awaits(s: Plain, u: nat, x: Tid, p: Ptr)
    requires u < |s.pcs| && p in s.mem
  {
    && |s.pcs| == 2 && x < |s.pcs| && s.head == Expects(s.pcs[u])
    && (s.pcs[x].LinkNode? || s.pcs[x].SwapHead? ==> s.pcs[x].seen == s.head)
    && (s.pcs[u].PopRead? ==> s.mem[p].next == NULL)
  }

  ghost predicate IsPrivate(s: Plain, p: Ptr) {
    p in s.mem && p in s.owner && s.owner[p].Private?
  }

  /** Thread `u` holds no node that is not published yet, except in that situation. */
  ghost predicate Untroubled(s: Plain, u: nat)
    requires u < |s.pcs|
  {
    var held := HeldTop(s.pcs[u]);
    held.Some? && IsPrivate(s, held.value) ==> Awaits(s, u, s.owner[held.value].t, held.value)
  }

  ghost predicate Calm(s: Plain) {
    forall u {:trigger Untroubled(s, u)} {:trigger s.pcs[u]} :: 0 <= u < |s.pcs| ==> Untroubled(s, u)
  }

  lemma CalmSuits(s: Plain, t: Tid)
    requires PlainInv(s) && Calm(s) && t < |s.pcs|
    ensures Suits(s, t)
  {
    hide Books, Logged;
    if s.pcs[t].SwapHead? { assert Sure(s, t); }
  }

  /** A step that leaves ownership alone and keeps thread `t` at its node. */
  lemma AccountedLocal(s: Plain, s': Plain, t: Tid)
    requires Accounted(s) && t < |s.pcs| && |s'.pcs| == |s.pcs| && s'.pcs == s.pcs[t := s'.pcs[t]] && s'.owner == s.owner
    requires NodeOf(s'.pcs[t]) == NodeOf(s.pcs[t]) && !s.pcs[t].PopFree?
    ensures Accounted(s')
  {
  }

  /** A step that gives node `p` to thread `t`, or takes it away. */
  lemma AccountedNode(s: Plain, s': Plain, t: Tid, p: Ptr)
    requires Accounted(s) && t < |s.pcs| && |s'.pcs| == |s.pcs| && s'.pcs == s.pcs[t := s'.pcs[t]]
    requires forall q :: q != p && q in s'.owner ==> q in s.owner && s'.owner[q] == s.owner[q]
    requires NodeOf(s.pcs[t]).Some? ==> NodeOf(s.pcs[t]) == Some(p)
    requires s.pcs[t].PopFree? ==> s.pcs[t].top == p
    requires p in s'.owner ==>
      || s'.owner[p] == Linked
      || (s'.owner[p] == Private(t) && NodeOf(s'.pcs[t]) == Some(p))
      || (s'.owner[p] == Removed(t) && s'.pcs[t] == PopFree(p))
    ensures Accounted(s')
  {
  }

  lemma NextAccounted(s: Plain, t: Tid, m: PlainMove)
    requires AllSure(s) && Accounted(s) && May(s, t, m)
    ensures Accounted(Next(s, t, m))
  {
    hide Accounted;
    assert Sure(s, t);
    var s', pc := Next(s, t, m), s.pcs[t];
    match m
    case CallPushAt(_, at) => AccountedNode(s, s', t, at);
    case CallPopNow => AccountedLocal(s, s', t);
    case Stale(_) => AccountedLocal(s, s', t);
    case Continue =>
      if pc.SwapHead? && s.head == pc.seen { AccountedNode(s, s', t, pc.node); }
      else if (pc.PopSwap? && s.head == pc.top) || pc.PopFree? { AccountedNode(s, s', t, pc.top); }
      else { AccountedLocal(s, s', t); }
  }

  lemma CalmAllocation(s: Plain, t: Tid, m: PlainMove)
    requires Accounted(s) && Calm(s) && May(s, t, m) && m.CallPushAt? && Harmless(s, m.at)
    ensures Calm(Next(s, t, m))
  {
    var s' := Next(s, t, m);
    forall u | 0 <= u < |s'.pcs| ensures Untroubled(s', u) { assert Untroubled(s, u); }
  }

  lemma CalmPush(s: Plain, t: Tid)
    requires AllSure(s) && Accounted(s) && Calm(s) && May(s, t, Continue) && NodeOf(s.pcs[t]).Some?
    ensures Calm(Next(s, t, Continue))
  {
    var s' := Next(s, t, Continue);
    assert Sure(s, t);
    forall u | 0 <= u < |s'.pcs| ensures Untroubled(s', u) { assert Untroubled(s, u); }
  }

  lemma CalmPop(s: Plain, t: Tid, m: PlainMove)
    requires Accounted(s) && Calm(s) && May(s, t, m) && (m.Continue? || m.Stale?)
    requires NodeOf(s.pcs[t]).None? && !s.pcs[t].PopFree?
    requires s.head in s.owner ==> s.owner[s.head] == Linked
    ensures Calm(Next(s, t, m))
  {
    var s' := Next(s, t, m);
    forall u | 0 <= u < |s'.pcs| ensures Untroubled(s', u) { assert Untroubled(s, u); }
  }

  lemma CalmRest(s: Plain, t: Tid, m: PlainMove)
    requires Accounted(s) && Calm(s) && May(s, t, m) && (m.CallPopNow? || (m.Continue? && s.pcs[t].PopFree?))
    ensures Calm(Next(s, t, m))
  {
    var s' := Next(s, t, m);
    forall u | 0 <= u < |s'.pcs| ensures Untroubled(s', u) { assert Untroubled(s, u); }
  }

  lemma NextCalm(s: Plain, t: Tid, m: PlainMove)
    requires Books(s) && AllSure(s) && Accounted(s) && Calm(s) && May(s, t, m)
    requires m.CallPushAt? ==> Harmless(s, m.at)
    ensures Calm(Next(s, t, m))
  {
    if m.CallPushAt? {
      CalmAllocation(s, t, m);
    } else if m.CallPopNow? || (m.Continue? && s.pcs[t].PopFree?) {
      CalmRest(s, t, m);
    } else if NodeOf(s.pcs[t]).Some? {
      CalmPush(s, t);
    } else {
      if s.head != NULL { HeadIsLinked(s); }
      hide Links, NoDups, AllSure, Calm, Accounted;
      CalmPop(s, t, m);
    }
  }

  ghost predicate SafeInv(s: Plain) {
    PlainInv(s) && Accounted(s) && Calm(s)
  }

  lemma NextIsSafe(s: Plain, t: Tid, m: PlainMove)
    requires SafeInv(s) && May(s, t, m) && (m.CallPushAt? ==> Harmless(s, m.at))
    ensures SafeInv(Next(s, t, m))
  {
    hide Next, Suits, Harmless, Books, AllSure, Logged, Accounted, Calm;
    CalmSuits(s, t);
    NextKeeps(s, t, m);
    NextAccounted(s, t, m);
    NextCalm(s, t, m);
  }

  lemma {:induction false} GuardedKeeps(threads: nat, turns: seq<PlainTurn>)
    requires Runs(Start(threads), turns) && Guarded(Start(threads), turns, 0)
    ensures SafeInv(After(Start(threads), turns))
    ensures |After(Start(threads), turns).pcs| == threads
  {
    hide SafeInv, Next, May, Harmless;
    if turns == [] {
      StartKeeps(threads);
    } else {
      var n := |turns| - 1;
      GuardedKeeps(threads, turns[..n]);
      var s := After(Start(threads), turns[..n]);
      NextIsSafe(s, turns[n].t, turns[n].m);
    }
  }

  lemma StartKeeps(threads: nat)
    ensures SafeInv(Start(threads))
  {
    assert Values(map[], []) == [];
  }

  /** As long as the allocator hands out only harmless addresses the plain stack refines the atomic one too, although
      pops read freed memory: nothing is lost, popped twice or freed twice, and every call returns its effect. */
  lemma GuardedIsSafe(threads: nat, turns: seq<PlainTurn>)
    requires Runs(Start(threads), turns) && Guarded(Start(threads), turns, 0)
    ensures var s := After(Start(threads), turns);
      && Links(s.mem, s.head, s.chain)
      && Replay(s.log) == Some(Values(s.mem, s.chain))
      && PushedValues(s.log) == PoppedValues(s.log) + multiset(Values(s.mem, s.chain))
      && |s.pcs| == threads
      && (forall t: Tid :: t < threads ==> !s.pcs[t].Crashed? && !CallsOf(s.log, t).Broken?)
      && (forall t: Tid :: t < threads && s.pcs[t].PopFree? ==> s.pcs[t].top in s.mem)
  {
    hide Runs, Guarded, After, Links, PlainInv, Accounted, Calm;
    GuardedKeeps(threads, turns);
    InvMeans(After(Start(threads), turns));
  }

  lemma InvMeans(s: Plain)
    requires PlainInv(s)
    ensures Links(s.mem, s.head, s.chain)
    ensures Replay(s.log) == Some(Values(s.mem, s.chain))
    ensures PushedValues(s.log) == PoppedValues(s.log) + multiset(Values(s.mem, s.chain))
    ensures forall t: Tid :: t < |s.pcs| ==> !s.pcs[t].Crashed? && !CallsOf(s.log, t).Broken?
    ensures forall t: Tid :: t < |s.pcs| && s.pcs[t].PopFree? ==> s.pcs[t].top in s.mem
  {
    ReplayConserves(s.log);
    hide Replay, CallsOf, Values, Links, PushedValues, PoppedValues;
    forall t: Tid | t < |s.pcs|
      ensures !s.pcs[t].Crashed? && !CallsOf(s.log, t).Broken? && (s.pcs[t].PopFree? ==> s.pcs[t].top in s.mem)
    {
      assert Sure(s, t);
    }
  }
}

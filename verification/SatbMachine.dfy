/** Concurrent marking as a machine: the collector loop, any number of mutators that call the write
    barrier, and the orchestrator that changes the phase. Every access to shared state is one step,
    and the collector reads the fields of an object one at a time. */
module SatbMachine {
  import opened Common
  import opened Graphs

  type Id = U32
  datatype Phase = Idle | Marking | Sweeping

  datatype Collector =
    | Waiting                                  // not spawned yet
    | Drain
    | PushDrained(ids: seq<Id>)
    | Pop
    | ReadFields(id: Id, read: seq<Id>)        // refs_of in progress: the fields read so far
    | PushChildren(todo: seq<Id>)
    | CheckPhase
    | FinalDrain
    | CheckStack
    | PushFinal(ids: seq<Id>)
    | Finished                                 // has returned `black`

  /** The store that follows a barrier call; None for a call without one. */
  datatype Target = Target(source: Id, index: nat, value: Id)

  datatype Mutator =
    | Resting
    | Call(was: Id, target: Option<Target>)    // pre_write(was) called, phase not loaded yet
    | Record(was: Id, target: Option<Target>)  // saw Marking
    | Store(write: Target)

  datatype History = History(
    active: bool,                // from the start of marking until the collector returns
    snap: Edges<Id>,             // the graph when marking started
    roots: set<Id>,
    left: set<Id>,               // ids left over in the queues when marking started
    seeds: set<Id>,              // roots, leftovers, and ids recorded or greyed while the phase was Marking
    late: set<Id>,               // ids recorded or greyed since then while it was not
    born: set<Id>)               // objects allocated since marking started

  datatype State = State(
    graph: Edges<Id>,
    phase: Phase,
    pending: seq<Id>,            // roots the orchestrator still has to push
    stack: seq<Id>,
    remembered: seq<Id>,
    collector: Collector,
    black: set<Id>,
    mutators: seq<Mutator>,
    hist: History)

  datatype Move =
    | StartMarking(roots: seq<Id>)
    | PushRoot
    | Spawn
    | EndMarking(to: Phase)
    | EndSweeping
    | Collect
    | Barrier(t: nat, was: Id)                            // pre_write(was) on its own
    | Write(t: nat, source: Id, index: nat, value: Id)    // pre_write(current target), then overwrite
    | Mutate(t: nat)                                      // the next step of a barrier call or store
    | Allocate(id: Id, fields: seq<Id>)
    | Grey(id: Id)                                        // the mutator pushes an object itself

  function Init(graph: Edges<Id>, mutators: nat): State {
    State(graph, Idle, [], [], [], Waiting, {}, seq(mutators, _ => Resting),
          History(false, map[], {}, {}, {}, {}, {}))
  }

  predicate Enabled(s: State, m: Move) {
    match m
    case StartMarking(_) => s.phase.Idle? && !s.hist.active
    case PushRoot => s.pending != []
    case Spawn => s.hist.active && s.collector.Waiting? && s.pending == []
    case EndMarking(to) => s.phase.Marking? && !to.Marking?
    case EndSweeping => s.phase.Sweeping? && !s.hist.active
    case Collect => s.hist.active && !s.collector.Waiting? && !s.collector.Finished?
    case Barrier(t, _) => t < |s.mutators| && s.mutators[t].Resting?
    case Write(t, u, f, _) => t < |s.mutators| && s.mutators[t].Resting? && u in s.graph && f < |s.graph[u]|
    case Mutate(t) => t < |s.mutators| && !s.mutators[t].Resting?
    case Allocate(id, _) => id !in s.graph
    case Grey(_) => true
  }

  // ---- the collector ----

  function DoDrain(s: State): State {
    s.(remembered := [], collector := if s.remembered == [] then Pop else PushDrained(s.remembered))
  }

  function DoPop(s: State): State {
    if s.stack == [] then s.(collector := CheckPhase)
    else
      var n := |s.stack| - 1;
      var id, rest := s.stack[n], s.(stack := s.stack[..n]);
      if id in s.black then rest.(collector := Drain)
      else rest.(black := s.black + {id}, collector := ReadFields(id, []))
  }

  function DoRead(s: State): State
    requires s.collector.ReadFields?
  {
    var ReadFields(id, read) := s.collector;
    var refs := Refs(s.graph, id);
    if |read| < |refs| then s.(collector := ReadFields(id, read + [refs[|read|]]))
    else s.(collector := PushChildren(read))
  }

  function DoPushChild(s: State): State
    requires s.collector.PushChildren?
  {
    var todo := s.collector.todo;
    if todo == [] then s.(collector := Drain)
    else
      var next := s.(collector := PushChildren(todo[1..]));
      if todo[0] in s.black then next else next.(stack := s.stack + [todo[0]])
  }

  function DoFinalDrain(s: State): State {
    s.(remembered := [], collector := if s.remembered == [] then CheckStack else PushFinal(s.remembered))
  }

  function DoCheckStack(s: State): State {
    if s.stack == [] then s.(collector := Finished, hist := s.hist.(active := false))
    else s.(collector := PushFinal([]))
  }

  function DoCollect(s: State): State
    requires Enabled(s, Collect)
  {
    match s.collector
    case Drain => DoDrain(s)
    case PushDrained(ids) => s.(stack := s.stack + ids, collector := Pop)
    case Pop => DoPop(s)
    case ReadFields(_, _) => DoRead(s)
    case PushChildren(_) => DoPushChild(s)
    case CheckPhase => s.(collector := if s.phase.Marking? then Drain else FinalDrain)
    case FinalDrain => DoFinalDrain(s)
    case CheckStack => DoCheckStack(s)
    case PushFinal(ids) => s.(stack := s.stack + ids, collector := Drain)
  }

  // ---- the mutators ----

  function AfterCall(target: Option<Target>): Mutator {
    match target
    case None => Resting
    case Some(w) => Store(w)
  }

  /** An id handed to the collector counts as a seed if that happens while the phase is Marking. */
  function Credit(s: State, id: Id): State {
    s.(hist := if s.phase.Marking? then s.hist.(seeds := s.hist.seeds + {id})
               else s.hist.(late := s.hist.late + {id}))
  }

  /** Puts `id` into the remembered set. */
  function Recorded(s: State, id: Id): State {
    Credit(s.(remembered := s.remembered + [id]), id)
  }

  function Overwritten(g: Edges<Id>, w: Target): Edges<Id> {
    if w.source in g && w.index < |g[w.source]|
    then
      var fields: seq<Id> := g[w.source][w.index := w.value];
      g[w.source := fields]
    else g
  }

  function DoMutate(s: State, t: nat): State
    requires t < |s.mutators|
  {
    match s.mutators[t]
    case Resting => s
    case Call(was, target) =>
      s.(mutators := s.mutators[t := if s.phase.Marking? then Record(was, target) else AfterCall(target)])
    case Record(was, target) => Recorded(s.(mutators := s.mutators[t := AfterCall(target)]), was)
    case Store(w) => s.(graph := Overwritten(s.graph, w), mutators := s.mutators[t := Resting])
  }

  // ---- all moves ----

  function Step(s: State, m: Move): State
    requires Enabled(s, m)
  {
    match m
    case StartMarking(roots) =>
      var left := Elems(s.remembered) + Elems(s.stack);
      s.(phase := Marking, pending := roots, collector := Waiting, black := {},
         hist := History(true, s.graph, Elems(roots), left, Elems(roots) + left, {}, {}))
    case PushRoot => s.(stack := s.stack + [s.pending[0]], pending := s.pending[1..])
    case Spawn => s.(collector := Drain)
    case EndMarking(to) => s.(phase := to)
    case EndSweeping => s.(phase := Idle)
    case Collect => DoCollect(s)
    case Barrier(t, was) => s.(mutators := s.mutators[t := Call(was, None)])
    case Write(t, u, f, w) => s.(mutators := s.mutators[t := Call(s.graph[u][f], Some(Target(u, f, w)))])
    case Mutate(t) => DoMutate(s, t)
    case Allocate(id, fields) =>
      s.(graph := s.graph[id := fields], hist := s.hist.(born := s.hist.born + {id}))
    case Grey(id) => Credit(s.(stack := s.stack + [id]), id)
  }

  // ---- runs ----

  predicate Legal(s: State, moves: seq<Move>)
    decreases |moves|, 0
  {
    moves == [] ||
    (var n := |moves| - 1; Legal(s, moves[..n]) && Enabled(Exec(s, moves[..n]), moves[n]))
  }

  function Exec(s: State, moves: seq<Move>): State
    requires Legal(s, moves)
    decreases |moves|, 1
  {
    if moves == [] then s
    else var n := |moves| - 1; Step(Exec(s, moves[..n]), moves[n])
  }

  // ---- the handshake between mutators and phase changes ----

  /** A mutator may be inside a barrier call or a write when marking starts, unless it is past the barrier or the
      reference it gave to the barrier has been overwritten meanwhile. */
  predicate MayBeCaughtBy(g: Edges<Id>, m: Mutator) {
    match m
    case Resting => true
    case Call(was, target) => target.Some? ==> StillHolds(g, target.value, was)
    case Record(was, target) => target.Some? ==> StillHolds(g, target.value, was)
    case Store(w) => !(w.source in g && w.index < |g[w.source]|)
  }

  predicate StillHolds(g: Edges<Id>, w: Target, was: Id) {
    w.source in g && w.index < |g[w.source]| ==> g[w.source][w.index] == was
  }

  /** The mutator is about to overwrite a reference and has yet to load the phase. */
  predicate Writing(m: Mutator) {
    m.Call? && m.target.Some?
  }

  /** What the barrier asks of its users: marking starts while no mutator is past the barrier of a write, nor has given
      it a reference that is out of date; the phase leaves Marking while no mutator that is about to overwrite has yet
      to load the phase; and from then until the collector returns nobody starts a write. */
  predicate Obeys(s: State, m: Move) {
    match m
    case StartMarking(_) => forall t :: 0 <= t < |s.mutators| ==> MayBeCaughtBy(s.graph, s.mutators[t])
    case EndMarking(_) => forall t :: 0 <= t < |s.mutators| ==> !Writing(s.mutators[t])
    case Write(_, _, _, _) => !InWindow(s)
    case _ => true
  }

  /** The phase has left Marking and the collector has not returned yet. */
  predicate InWindow(s: State) {
    s.hist.active && !s.phase.Marking?
  }

  predicate Obedient(s: State, moves: seq<Move>)
    requires Legal(s, moves)
  {
    moves == [] ||
    (var n := |moves| - 1; Obedient(s, moves[..n]) && Obeys(Exec(s, moves[..n]), moves[n]))
  }
}

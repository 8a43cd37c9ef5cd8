/** What nobody waits for: the collector works in every phase, mutators are never held up, and whole cycles can follow
    one another. */
module SatbProgress {
  import opened Graphs
  import opened SatbMachine
  import opened SatbSafety
  import opened SatbTermination
  import opened SatbBarrier

  // ---- who may move ----

  /** A collector that has been spawned and has not returned is in an active cycle. */
  ghost predicate SpawnedIsActive(s: State) {
    (!s.collector.Waiting? && !s.collector.Finished? ==> s.hist.active) && (s.collector.Finished? ==> !s.hist.active)
  }

  lemma {:induction false} RunSpawned(graph: Edges<Id>, mutators: nat, moves: seq<Move>)
    requires Legal(Init(graph, mutators), moves)
    ensures SpawnedIsActive(Exec(Init(graph, mutators), moves))
  {
    if moves != [] {
      hide Step, Enabled;
      var n := |moves| - 1;
      RunSpawned(graph, mutators, moves[..n]);
      StepSpawned(Exec(Init(graph, mutators), moves[..n]), moves[n]);
    }
  }

  lemma StepSpawned(s: State, m: Move)
    requires SpawnedIsActive(s) && Enabled(s, m)
    ensures SpawnedIsActive(Step(s, m))
  {
  }

  /** In every run, whatever the phase, a collector that has been spawned and has not returned can take its next step. */
  lemma CollectorNeverWaits(graph: Edges<Id>, mutators: nat, moves: seq<Move>)
    requires Legal(Init(graph, mutators), moves)
    ensures var s := Exec(Init(graph, mutators), moves);
      && (Enabled(s, Collect) <==> s.hist.active && !s.collector.Waiting? && !s.collector.Finished?)
      && (Enabled(s, Collect) <==> !s.collector.Waiting? && !s.collector.Finished?)
      && (Enabled(s, Collect) ==> Legal(Init(graph, mutators), moves + [Collect]))
  {
    RunSpawned(graph, mutators, moves);
    assert (moves + [Collect])[..|moves|] == moves;
  }

  /** The grain of the collector: it locks the remembered set, the stack and the phase one at a time, reads one field of an
      object at a time, and pushes one reference at a time. */
  lemma CollectorFlow(s: State)
    requires Enabled(s, Collect)
    ensures var c, c' := s.collector, Step(s, Collect).collector;
      match c
      case Drain => c' == if s.remembered == [] then Pop else PushDrained(s.remembered)
      case PushDrained(_) => c' == Pop
      case Pop =>
        if s.stack == [] then c' == CheckPhase
        else var id := s.stack[|s.stack| - 1]; c' == if id in s.black then Drain else ReadFields(id, [])
      case ReadFields(id, read) =>
        c' == if |read| < |Refs(s.graph, id)| then ReadFields(id, read + [Refs(s.graph, id)[|read|]]) else PushChildren(read)
      case PushChildren(todo) => c' == if todo == [] then Drain else PushChildren(todo[1..])
      case CheckPhase => c' == if s.phase.Marking? then Drain else FinalDrain
      case FinalDrain => c' == if s.remembered == [] then CheckStack else PushFinal(s.remembered)
      case CheckStack => c' == if s.stack == [] then Finished else PushFinal([])
      case PushFinal(_) => c' == Drain
  {
  }

  /** No mutator ever waits: in the middle of a call it can go on, between calls it can call the barrier with any id, and
      start a write to any field there is; objects can be allocated and greyed at any time. */
  lemma MutatorsNeverWait(s: State, t: nat, was: Id, u: Id, f: nat, v: Id, fields: seq<Id>)
    requires t < |s.mutators|
    ensures Enabled(s, Mutate(t)) <==> !s.mutators[t].Resting?
    ensures Enabled(s, Barrier(t, was)) <==> s.mutators[t].Resting?
    ensures Enabled(s, Write(t, u, f, v)) <==> s.mutators[t].Resting? && u in s.graph && f < |s.graph[u]|
    ensures Enabled(s, Grey(was)) && (Enabled(s, Allocate(u, fields)) <==> u !in s.graph)
  {
  }

  // ---- the collector alone, while the phase is Marking ----

  /** Work left for the collector while the phase stays Marking; none when both queues are empty. */
  function MarkingWork(s: State): nat {
    match s.collector
    case ReadFields(id, read) => if |read| < |Refs(s.graph, id)| then |Refs(s.graph, id)| - |read| else 0
    case PushChildren(todo) => |todo|
    case _ => 16 * (3 * |s.remembered| + 2 * Carried(s.collector) + |s.stack|) + MarkingRank(s)
  }

  function MarkingRank(s: State): nat {
    var more := if s.remembered == [] then 0 else 8;
    match s.collector
    case PushDrained(_) => 5 + more
    case Pop => 4 + more
    case CheckPhase => if s.remembered == [] then 7 else 3 + more
    case PushFinal(_) => 7 + more
    case Drain => if s.remembered == [] then 6 else 2 + more
    case _ => 15
  }

  /** The collector has looked at both queues and found nothing, and waits for captures. */
  predicate Caught(s: State) {
    s.collector.CheckPhase? && s.stack == [] && s.remembered == []
  }

  predicate MarkingOn(s: State) {
    Enabled(s, Collect) && s.phase.Marking? && !s.collector.FinalDrain? && !s.collector.CheckStack?
  }

  lemma MarkingGoesOn(s: State)
    requires MarkingOn(s)
    ensures MarkingOn(DoCollect(s))
  {
  }

  lemma MarkingWorkShrinks(s: State)
    requires MarkingOn(s) && !Caught(s) && !Caught(DoCollect(s))
    requires !(s.collector.Pop? && s.stack != [] && s.stack[|s.stack| - 1] !in s.black)
    ensures var s' := DoCollect(s);
      || Stage(s'.collector) < Stage(s.collector)
      || (Stage(s'.collector) == Stage(s.collector) && MarkingWork(s') < MarkingWork(s))
  {
  }

  ghost predicate FewerMarks(s': State, s: State) {
    || |White(s')| < |White(s)|
    || (|White(s')| == |White(s)| && Stage(s'.collector) < Stage(s.collector))
    || (|White(s')| == |White(s)| && Stage(s'.collector) == Stage(s.collector) && MarkingWork(s') < MarkingWork(s))
  }

  lemma EachMarkingStepShrinks(s: State)
    requires MarkingOn(s) && !Caught(s) && !Caught(DoCollect(s))
    ensures FewerMarks(DoCollect(s), s)
  {
    hide DoCollect, White, MarkingWork, Stage, MarkingOn, Caught;
    Moving(s);
    WhiteShrinks(s);
    SubsetSize(White(DoCollect(s)), White(s));
    if s.collector.Pop? && s.stack != [] && s.stack[|s.stack| - 1] !in s.black {
      PopMarks(s);
    } else {
      MarkingWorkShrinks(s);
    }
  }

  /** No step of the collector forgets an id. */
  lemma CollectForgetsNothing(s: State)
    requires Enabled(s, Collect)
    ensures Noted(s) <= Noted(DoCollect(s))
  {
    match s.collector
    case PushDrained(ids) => BothElems(s.stack, ids);
    case PushFinal(ids) => BothElems(s.stack, ids);
    case Pop => if s.stack != [] { LastElem(s.stack); }
    case ReadFields(id, read) =>
      if |read| < |Refs(s.graph, id)| { MoreElems(read, Refs(s.graph, id)[|read|]); }
    case PushChildren(todo) => if todo != [] { FirstElem(todo); MoreElems(s.stack, todo[0]); }
    case _ =>
  }

  /** Nor does it change what belongs to the others. */
  lemma CollectFrame(s: State)
    requires Enabled(s, Collect)
    ensures var s' := DoCollect(s);
      && s'.graph == s.graph && s'.mutators == s.mutators && s'.phase == s.phase && s'.pending == s.pending
      && s'.hist == s.hist.(active := s'.hist.active)
  {
  }

  lemma OneMoreStep(s: State, moves: seq<Move>)
    requires Legal(s, moves) && Enabled(Exec(s, moves), Collect)
    ensures Legal(s, moves + [Collect]) && Exec(s, moves + [Collect]) == DoCollect(Exec(s, moves))
  {
    assert (moves + [Collect])[..|moves|] == moves;
  }

  /** While the phase is Marking the collector, left alone, empties both queues and blackens whatever has been given to
      it, and everything it finds on the way; it does not wait for marking to end. */
  lemma {:induction false} MarkingCatchesUp(s: State, moves: seq<Move>) returns (all: seq<Move>)
    requires Legal(s, moves) && MarkingOn(Exec(s, moves)) && Exec(s, moves).pending == []
    ensures Legal(s, all) && moves <= all && forall k :: |moves| <= k < |all| ==> all[k].Collect?
    ensures var now, then_ := Exec(s, moves), Exec(s, all);
      && then_.phase.Marking? && Caught(then_) && MarkingOn(then_) && then_.pending == []
      && Noted(now) <= then_.black && then_.graph == now.graph && then_.mutators == now.mutators
    decreases |White(Exec(s, moves))|, Stage(Exec(s, moves).collector), MarkingWork(Exec(s, moves))
  {
    hide DoCollect, White, Stage, MarkingWork, Legal, Exec, Caught, MarkingOn;
    var now := Exec(s, moves);
    if Caught(now) {
      all := moves;
      CaughtIsBlack(now);
    } else {
      var longer := moves + [Collect];
      Moving(now);
      OneMoreStep(s, moves);
      MarkingGoesOn(now);
      CollectForgetsNothing(now);
      CollectFrame(now);
      if Caught(DoCollect(now)) {
        all := longer;
        CaughtIsBlack(DoCollect(now));
      } else {
        EachMarkingStepShrinks(now);
        all := MarkingCatchesUp(s, longer);
      }
    }
  }

  lemma Moving(s: State)
    requires MarkingOn(s)
    ensures Enabled(s, Collect) && s.phase.Marking?
  {
  }

  lemma CaughtIsBlack(s: State)
    requires Caught(s) && s.pending == [] && MarkingOn(s)
    ensures Noted(s) == s.black && s.phase.Marking?
  {
  }

  // ---- whole cycles ----

  ghost predicate Ran(graph: Edges<Id>, mutators: nat, moves: seq<Move>, s: State) {
    Legal(Init(graph, mutators), moves) && Exec(Init(graph, mutators), moves) == s
  }

  lemma Then(graph: Edges<Id>, mutators: nat, moves: seq<Move>, s: State, m: Move) returns (longer: seq<Move>, s': State)
    requires Ran(graph, mutators, moves, s) && Enabled(s, m)
    ensures longer == moves + [m] && s' == Step(s, m) && Ran(graph, mutators, longer, s')
    ensures Obedient(Init(graph, mutators), moves) && Obeys(s, m) ==> Obedient(Init(graph, mutators), longer)
  {
    hide Step, Enabled, Obeys;
    longer, s' := moves + [m], Step(s, m);
    assert longer[..|moves|] == moves;
  }

  /** The orchestrator pushes the roots. */
  lemma {:induction false} PushRoots(graph: Edges<Id>, mutators: nat, moves: seq<Move>, s: State)
    returns (longer: seq<Move>, s': State)
    requires Ran(graph, mutators, moves, s) && Obedient(Init(graph, mutators), moves)
    ensures Ran(graph, mutators, longer, s') && moves <= longer && Obedient(Init(graph, mutators), longer)
    ensures s' == s.(pending := [], stack := s.stack + s.pending)
    decreases |s.pending|
  {
    hide Ran, Obedient;
    if s.pending == [] {
      longer, s' := moves, s;
      assert s.stack + [] == s.stack;
    } else {
      longer, s' := Then(graph, mutators, moves, s, PushRoot);
      assert s.stack + s.pending == (s.stack + [s.pending[0]]) + s.pending[1..];
      longer, s' := PushRoots(graph, mutators, longer, s');
    }
  }

  /** From any moment between cycles at which the handshake allows it, a cycle over any roots can be run. Before its phase
      leaves Marking, everything that was reachable from the roots is black; then it comes to an end, and the next one
      may start. */
  lemma CyclesCanFollow(graph: Edges<Id>, mutators: nat, moves: seq<Move>, s: State, roots: seq<Id>)
    returns (caught: seq<Move>, c: State, whole: seq<Move>, e: State)
    requires Ran(graph, mutators, moves, s) && Obedient(Init(graph, mutators), moves)
    requires !s.hist.active && Obeys(s, StartMarking(roots))
    ensures Ran(graph, mutators, caught, c) && moves <= caught
    ensures c.phase.Marking? && c.graph == s.graph && c.mutators == s.mutators
    ensures forall x :: Reachable(s.graph, Elems(roots), x) ==> x in c.black
    ensures Ran(graph, mutators, whole, e) && caught <= whole
    ensures e.collector.Finished? && e.phase.Sweeping? && Enabled(e, EndSweeping)
    ensures Step(e, EndSweeping).phase.Idle? && Enabled(Step(e, EndSweeping), StartMarking(roots))
  {
    hide Legal, Exec, Obedient, Reachable, Caught, MarkingOn, Noted;
    RunKeepsQueues(graph, mutators, moves);
    NotMarking(s);
    var longer, now := StartCycle(graph, mutators, moves, s, roots);
    caught := MarkingCatchesUp(Init(graph, mutators), longer);
    c := Exec(Init(graph, mutators), caught);
    CollectIsObedient(Init(graph, mutators), longer, caught);
    SnapshotIsBlack(graph, mutators, caught);
    CollectLeaves(Init(graph, mutators), longer, caught);
    whole := EndCycle(graph, mutators, caught, c, roots);
    e := Exec(Init(graph, mutators), whole);
  }

  lemma NotMarking(s: State)
    requires QueueInv(s) && !s.hist.active
    ensures !s.phase.Marking?
  {
  }

  /** Sweeping ends if need be, marking starts, the roots are pushed and the collector is spawned. */
  lemma StartCycle(graph: Edges<Id>, mutators: nat, moves: seq<Move>, s: State, roots: seq<Id>)
    returns (longer: seq<Move>, s': State)
    requires Ran(graph, mutators, moves, s) && Obedient(Init(graph, mutators), moves)
    requires !s.hist.active && !s.phase.Marking? && Obeys(s, StartMarking(roots))
    ensures Ran(graph, mutators, longer, s') && moves <= longer && Obedient(Init(graph, mutators), longer)
    ensures MarkingOn(s') && s'.pending == [] && s'.graph == s.graph && s'.mutators == s.mutators
    ensures s'.hist.snap == s.graph && s'.hist.roots == Elems(roots) && s'.hist.active
  {
    hide Ran, Obedient;
    longer, s' := moves, s;
    if s.phase.Sweeping? { longer, s' := Then(graph, mutators, longer, s', EndSweeping); }
    longer, s' := Then(graph, mutators, longer, s', StartMarking(roots));
    longer, s' := PushRoots(graph, mutators, longer, s');
    longer, s' := Then(graph, mutators, longer, s', Spawn);
  }

  lemma {:induction false} CollectIsObedient(s: State, moves: seq<Move>, all: seq<Move>)
    requires Legal(s, moves) && Legal(s, all) && moves <= all && Obedient(s, moves)
    requires forall k :: |moves| <= k < |all| ==> all[k].Collect?
    ensures Obedient(s, all)
  {
    if |all| == |moves| {
      assert all == moves;
    } else {
      CollectIsObedient(s, moves, all[..|all| - 1]);
    }
  }

  lemma {:induction false} CollectLeaves(s: State, moves: seq<Move>, all: seq<Move>)
    requires Legal(s, moves) && Legal(s, all) && moves <= all
    requires forall k :: |moves| <= k < |all| ==> all[k].Collect?
    ensures var b, e := Exec(s, moves), Exec(s, all);
      && e.graph == b.graph && e.mutators == b.mutators && e.phase == b.phase
      && e.hist == b.hist.(active := e.hist.active)
  {
    if |all| == |moves| {
      assert all == moves;
    } else {
      hide DoCollect;
      CollectLeaves(s, moves, all[..|all| - 1]);
      CollectFrame(Exec(s, all[..|all| - 1]));
    }
  }

  /** Once the collector has caught up, nothing of the snapshot is white. */
  lemma SnapshotIsBlack(graph: Edges<Id>, mutators: nat, moves: seq<Move>)
    requires Legal(Init(graph, mutators), moves) && Obedient(Init(graph, mutators), moves)
    requires var s := Exec(Init(graph, mutators), moves); MarkingOn(s) && Caught(s) && s.pending == []
    ensures var s := Exec(Init(graph, mutators), moves);
      forall x :: Reachable(s.hist.snap, s.hist.roots, x) ==> x in s.black
  {
    hide Legal, Exec, Obedient, Reachable;
    InitInv(graph, mutators);
    RunKeeps(Init(graph, mutators), moves);
    var s := Exec(Init(graph, mutators), moves);
    CaughtIsBlack(s);
    BlackIsClosed(s);
    forall x | Reachable(s.hist.snap, s.hist.roots, x) ensures x in s.black {
      ClosedHoldsReachable(s.hist.snap, s.black, s.hist.roots, x);
    }
  }

  lemma BlackIsClosed(s: State)
    requires Inv(s) && s.hist.active && Noted(s) == s.black && !s.collector.ReadFields?
    ensures Closed(s.hist.snap, s.black) && s.hist.roots <= s.black
  {
    hide Noted;
    forall u, v | u in s.black && v in Refs(s.hist.snap, u) ensures v in s.black {
      var f: nat :| f < |Refs(s.hist.snap, u)| && Refs(s.hist.snap, u)[f] == v;
      assert SnapField(s, u, f) && SnapRef(s, u, f) == v;
    }
  }

  /** The phase leaves Marking and the collector comes to an end. */
  lemma EndCycle(graph: Edges<Id>, mutators: nat, moves: seq<Move>, s: State, roots: seq<Id>) returns (all: seq<Move>)
    requires Ran(graph, mutators, moves, s) && MarkingOn(s)
    ensures Legal(Init(graph, mutators), all) && moves <= all
    ensures var e := Exec(Init(graph, mutators), all);
      e.collector.Finished? && e.phase.Sweeping? && Enabled(e, EndSweeping) && Step(e, EndSweeping).phase.Idle?
      && Enabled(Step(e, EndSweeping), StartMarking(roots))
  {
    var longer, s' := Then(graph, mutators, moves, s, EndMarking(Sweeping));
    all := MarkingCompletes(Init(graph, mutators), longer);
    CollectLeaves(Init(graph, mutators), longer, all);
    RunSpawned(graph, mutators, all);
  }
}

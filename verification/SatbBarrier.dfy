/** What the barrier hands to the collector, step by step and over runs: captures only while the phase is Marking, and
    leftovers for the next cycle only from what was handed over too late for this one. */
module SatbBarrier {
  import opened Graphs
  import opened SatbMachine
  import opened SatbSafety
  import opened SatbPrecision

  // ---- one step ----

  /** The three steps of a barrier call and the store after it. Outside Marking nothing is recorded; during Marking the
      id given to the barrier is, behind all others, and only then comes the store, which changes one field. */
  lemma BarrierSteps(s: State, t: nat)
    requires Enabled(s, Mutate(t))
    ensures var s', m, m' := Step(s, Mutate(t)), s.mutators[t], Step(s, Mutate(t)).mutators[t];
      && (m.Call? && !s.phase.Marking? ==>
            s'.remembered == s.remembered && s'.graph == s.graph
            && m' == if m.target.Some? then Store(m.target.value) else Resting)
      && (m.Call? && s.phase.Marking? ==>
            s'.remembered == s.remembered && s'.graph == s.graph && m' == Record(m.was, m.target))
      && (m.Record? ==>
            s'.remembered == s.remembered + [m.was] && s'.graph == s.graph
            && m' == if m.target.Some? then Store(m.target.value) else Resting)
      && (m.Store? ==>
            s'.remembered == s.remembered && m' == Resting
            && s'.graph == Overwritten(s.graph, m.write))
      && s'.stack == s.stack && s'.phase == s.phase && s'.collector == s.collector && s'.black == s.black
  {
  }

  /** A store changes the field it names and no other. */
  lemma StoreIsLocal(g: Edges<Id>, w: Target, u: Id, f: nat)
    requires u in g && f < |g[u]|
    ensures var g' := Overwritten(g, w);
      && g'.Keys == g.Keys && |g'[u]| == |g[u]|
      && g'[u][f] == if u == w.source && f == w.index then w.value else g[u][f]
  {
  }

  /** What a mutator does besides: a new object has the fields it was allocated with, and greying puts an id on top of the
      stack. */
  lemma OtherMutatorSteps(s: State, id: Id, fields: seq<Id>)
    ensures Enabled(s, Allocate(id, fields)) ==>
      var s' := Step(s, Allocate(id, fields));
      s'.graph == s.graph[id := fields] && s'.stack == s.stack && s'.remembered == s.remembered
    ensures var s' := Step(s, Grey(id)); s'.stack == s.stack + [id] && s'.graph == s.graph && s'.remembered == s.remembered
  {
  }

  /** The stack is one: no step takes an id off it but the collector's pop, which takes the top, and ids are added on top;
      the remembered set is emptied as a whole, or grows at its end. */
  lemma QueueDiscipline(s: State, m: Move)
    requires Enabled(s, m)
    ensures var s' := Step(s, m);
      && (s.stack <= s'.stack || (m.Collect? && s.collector.Pop? && s.stack != [] && s'.stack == s.stack[..|s.stack| - 1]))
      && (s.remembered <= s'.remembered || (m.Collect? && s'.remembered == []
           && (s'.collector.PushDrained? || s'.collector.PushFinal?) && s'.collector.ids == s.remembered))
      && (m.Collect? && (s.collector.PushDrained? || s.collector.PushFinal?) ==> s'.stack == s.stack + s.collector.ids)
  {
  }

  /** The orchestrator changes the phase as asked, and may do so whenever the phase is the one to leave; a cycle starts and
      sweeping ends only when no collector is at work. */
  lemma OrchestratorSteps(s: State, roots: seq<Id>, to: Phase)
    ensures Enabled(s, StartMarking(roots)) <==> s.phase.Idle? && !s.hist.active
    ensures Enabled(s, EndMarking(to)) <==> s.phase.Marking? && !to.Marking?
    ensures Enabled(s, EndSweeping) <==> s.phase.Sweeping? && !s.hist.active
    ensures Enabled(s, StartMarking(roots)) ==> Step(s, StartMarking(roots)).phase.Marking?
    ensures Enabled(s, EndMarking(to)) ==> Step(s, EndMarking(to)).phase == to
    ensures Enabled(s, EndSweeping) ==> Step(s, EndSweeping).phase.Idle?
  {
  }

  /** The handshake restricts three kinds of moves and no others. */
  lemma HandshakeRestricts(s: State, m: Move)
    ensures !m.StartMarking? && !m.EndMarking? && !m.Write? ==> Obeys(s, m)
    ensures m.Write? ==> (Obeys(s, m) <==> !s.hist.active || s.phase.Marking?)
    ensures m.EndMarking? ==>
      (Obeys(s, m) <==> forall t :: 0 <= t < |s.mutators| ==> !(s.mutators[t].Call? && s.mutators[t].target.Some?))
    ensures m.StartMarking? && (forall t :: 0 <= t < |s.mutators| ==> s.mutators[t].Resting?) ==> Obeys(s, m)
  {
  }

  // ---- the history is that of the run ----

  /** The graph when marking last started. */
  function GraphAtStart(s: State, moves: seq<Move>): Edges<Id>
    requires Legal(s, moves)
  {
    if moves == [] then map[]
    else
      var n := |moves| - 1;
      if moves[n].StartMarking? then Exec(s, moves[..n]).graph else GraphAtStart(s, moves[..n])
  }

  /** The roots it started with. */
  function RootsAtStart(moves: seq<Move>): set<Id> {
    if moves == [] then {}
    else
      var n := |moves| - 1;
      if moves[n].StartMarking? then Elems(moves[n].roots) else RootsAtStart(moves[..n])
  }

  /** What was left over in the queues then. */
  function LeftAtStart(s: State, moves: seq<Move>): set<Id>
    requires Legal(s, moves)
  {
    if moves == [] then {}
    else
      var n := |moves| - 1;
      if moves[n].StartMarking? then Elems(Exec(s, moves[..n]).stack) + Elems(Exec(s, moves[..n]).remembered)
      else LeftAtStart(s, moves[..n])
  }

  /** The ids recorded or greyed since then while the phase was Marking. */
  function CapturedSince(s: State, moves: seq<Move>): set<Id>
    requires Legal(s, moves)
  {
    if moves == [] then {}
    else
      var n := |moves| - 1;
      if moves[n].StartMarking? then {} else CapturedSince(s, moves[..n]) + Captures(Exec(s, moves[..n]), moves[n])
  }

  function Captures(s: State, m: Move): set<Id> {
    if !s.phase.Marking? then {}
    else if m.Grey? then {m.id}
    else if m.Mutate? && m.t < |s.mutators| && s.mutators[m.t].Record? then {s.mutators[m.t].was}
    else {}
  }

  /** The objects allocated since then. */
  function BornSince(moves: seq<Move>): set<Id> {
    if moves == [] then {}
    else
      var n := |moves| - 1;
      if moves[n].StartMarking? then {}
      else BornSince(moves[..n]) + (if moves[n].Allocate? then {moves[n].id} else {})
  }

  lemma StepHistory(s: State, m: Move)
    requires Enabled(s, m) && !m.StartMarking?
    ensures var h, h' := s.hist, Step(s, m).hist;
      && h'.snap == h.snap && h'.roots == h.roots && h'.left == h.left
      && h'.seeds == h.seeds + Captures(s, m) && h'.born == h.born + (if m.Allocate? then {m.id} else {})
  {
  }

  lemma StartHistory(s: State, roots: seq<Id>)
    requires Enabled(s, StartMarking(roots))
    ensures var h := Step(s, StartMarking(roots)).hist; var left := Elems(s.stack) + Elems(s.remembered);
      h.snap == s.graph && h.roots == Elems(roots) && h.left == left && h.seeds == Elems(roots) + left && h.born == {}
  {
  }

  /** What the theorems say of the history variables they say of the run. */
  lemma {:induction false} HistoryIsTrue(graph: Edges<Id>, mutators: nat, moves: seq<Move>)
    requires Legal(Init(graph, mutators), moves)
    ensures var s0 := Init(graph, mutators); var h := Exec(s0, moves).hist;
      && h.snap == GraphAtStart(s0, moves) && h.roots == RootsAtStart(moves) && h.left == LeftAtStart(s0, moves)
      && h.seeds == h.roots + h.left + CapturedSince(s0, moves) && h.born == BornSince(moves)
  {
    hide Step, Enabled, Captures;
    if moves != [] {
      var n := |moves| - 1;
      var s := Exec(Init(graph, mutators), moves[..n]);
      HistoryIsTrue(graph, mutators, moves[..n]);
      if moves[n].StartMarking? { StartHistory(s, moves[n].roots); } else { StepHistory(s, moves[n]); }
    }
  }

  /** All that the collector was given. */
  function Given(s: State, moves: seq<Move>): set<Id>
    requires Legal(s, moves)
  {
    RootsAtStart(moves) + LeftAtStart(s, moves) + CapturedSince(s, moves)
  }

  /** SATB safety and capture completeness, in terms of the run: what could be reached when marking last started, from its
      roots, from leftovers and from every id captured since, is black on return. */
  lemma RunSurvives(graph: Edges<Id>, mutators: nat, moves: seq<Move>)
    requires Legal(Init(graph, mutators), moves) && Exec(Init(graph, mutators), moves).collector.Finished?
    ensures var s0 := Init(graph, mutators); var s := Exec(s0, moves);
      && Given(s0, moves) <= s.black
      && (Obedient(s0, moves) ==>
            forall x :: Reachable(GraphAtStart(s0, moves), Given(s0, moves), x) ==> x in s.black)
  {
    hide Legal, Exec, Obedient, Reachable, GraphAtStart, RootsAtStart, LeftAtStart, CapturedSince, BornSince;
    HistoryIsTrue(graph, mutators, moves);
    CapturesSurvive(graph, mutators, moves);
    if Obedient(Init(graph, mutators), moves) { SnapshotSurvives(graph, mutators, moves); }
  }

  // ---- over runs ----

  /** The ids given to barrier calls that found the phase to be Marking. */
  function LoadedMarking(s: State, moves: seq<Move>): set<Id>
    requires Legal(s, moves)
  {
    if moves == [] then {}
    else
      var n := |moves| - 1;
      LoadedMarking(s, moves[..n]) + Loaded(Exec(s, moves[..n]), moves[n])
  }

  function Loaded(s: State, m: Move): set<Id> {
    if m.Mutate? && m.t < |s.mutators| && s.mutators[m.t].Call? && s.phase.Marking? then {s.mutators[m.t].was} else {}
  }

  /** What is recorded, or about to be, is among `ids`. */
  ghost predicate RecordedAmong(s: State, ids: set<Id>) {
    && Elems(s.remembered) <= ids
    && (s.collector.PushDrained? || s.collector.PushFinal? ==> Elems(s.collector.ids) <= ids)
    && (forall t {:trigger s.mutators[t]} :: 0 <= t < |s.mutators| && s.mutators[t].Record? ==> s.mutators[t].was in ids)
  }

  lemma StepRecords(s: State, m: Move, ids: set<Id>)
    requires RecordedAmong(s, ids) && Enabled(s, m)
    ensures RecordedAmong(Step(s, m), ids + Loaded(s, m))
  {
    if m.Mutate? && s.mutators[m.t].Record? { MoreElems(s.remembered, s.mutators[m.t].was); }
  }

  /** In every run the remembered set holds only ids whose barrier call found the phase to be Marking. */
  lemma {:induction false} OnlyMarkingRecords(graph: Edges<Id>, mutators: nat, moves: seq<Move>)
    requires Legal(Init(graph, mutators), moves)
    ensures RecordedAmong(Exec(Init(graph, mutators), moves), LoadedMarking(Init(graph, mutators), moves))
  {
    hide Step, Enabled, RecordedAmong;
    if moves == [] {
      NothingRecorded(graph, mutators);
    } else {
      var n := |moves| - 1;
      OnlyMarkingRecords(graph, mutators, moves[..n]);
      StepRecords(Exec(Init(graph, mutators), moves[..n]), moves[n], LoadedMarking(Init(graph, mutators), moves[..n]));
    }
  }

  lemma NothingRecorded(graph: Edges<Id>, mutators: nat)
    ensures RecordedAmong(Init(graph, mutators), {})
  {
  }

  // ---- leftovers ----

  /** Between cycles the queues hold only ids that were handed over too late. */
  ghost predicate QueueInv(s: State) {
    && CaptureInv(s)
    && (s.phase.Marking? ==> s.hist.active)
    && (s.hist.active && s.collector.CheckStack? ==> Elems(s.remembered) <= s.hist.late)
    && (!s.hist.active ==> s.pending == [] && Elems(s.stack) + Elems(s.remembered) <= s.hist.late)
  }

  lemma StepKeepsQueues(s: State, m: Move)
    requires QueueInv(s) && Enabled(s, m)
    ensures QueueInv(Step(s, m))
  {
    StepKeepsCaptures(s, m);
    hide CaptureInv;
    match m
    case Grey(id) => MoreElems(s.stack, id); ActiveClosing(s);
    case Mutate(t) => ActiveClosing(s); if s.mutators[t].Record? { MoreElems(s.remembered, s.mutators[t].was); }
    case Collect => ActiveClosing(s);
    case _ =>
  }

  lemma ActiveClosing(s: State)
    requires CaptureInv(s)
    ensures s.hist.active ==> Closing(s)
  {
  }

  lemma {:induction false} RunKeepsQueues(graph: Edges<Id>, mutators: nat, moves: seq<Move>)
    requires Legal(Init(graph, mutators), moves)
    ensures QueueInv(Exec(Init(graph, mutators), moves))
  {
    hide Step, Enabled, QueueInv;
    if moves == [] {
      InitQueues(graph, mutators);
    } else {
      var n := |moves| - 1;
      RunKeepsQueues(graph, mutators, moves[..n]);
      StepKeepsQueues(Exec(Init(graph, mutators), moves[..n]), moves[n]);
    }
  }

  lemma InitQueues(graph: Edges<Id>, mutators: nat)
    ensures QueueInv(Init(graph, mutators))
  {
  }

  /** A cycle finds in the queues only what was handed over while the phase was not Marking, since the cycle before it
      started; if that is nothing, both queues are empty. */
  lemma LeftoversWereLate(graph: Edges<Id>, mutators: nat, moves: seq<Move>, roots: seq<Id>)
    requires Legal(Init(graph, mutators), moves)
    requires Enabled(Exec(Init(graph, mutators), moves), StartMarking(roots))
    ensures var s := Exec(Init(graph, mutators), moves);
      && Step(s, StartMarking(roots)).hist.left <= s.hist.late
      && (s.hist.late == {} ==> s.stack == [] && s.remembered == [])
  {
    RunKeepsQueues(graph, mutators, moves);
    var s := Exec(Init(graph, mutators), moves);
    SomeElem(s.stack);
    SomeElem(s.remembered);
  }

  lemma SomeElem(xs: seq<Id>)
    ensures xs != [] ==> Elems(xs) != {}
  {
    if xs != [] { assert xs[0] in Elems(xs); }
  }

  /** Each cycle starts with nothing handed over too late for the one before. */
  ghost predicate Punctual(s: State, moves: seq<Move>)
    requires Legal(s, moves)
  {
    moves == [] ||
    (var n := |moves| - 1;
     Punctual(s, moves[..n]) && (moves[n].StartMarking? ==> Exec(s, moves[..n]).hist.late == {}))
  }

  lemma LeftStays(s: State, m: Move)
    requires Enabled(s, m) && !m.StartMarking?
    ensures Step(s, m).hist.left == s.hist.left
  {
  }

  lemma {:induction false} PunctualLeavesNothing(graph: Edges<Id>, mutators: nat, moves: seq<Move>)
    requires Legal(Init(graph, mutators), moves) && Punctual(Init(graph, mutators), moves)
    ensures Exec(Init(graph, mutators), moves).hist.left == {}
  {
    hide Step, Enabled;
    if moves != [] {
      var n := |moves| - 1;
      PunctualLeavesNothing(graph, mutators, moves[..n]);
      var s := Exec(Init(graph, mutators), moves[..n]);
      if moves[n].StartMarking? { LeftoversWereLate(graph, mutators, moves[..n], moves[n].roots); }
      else { LeftStays(s, moves[n]); }
    }
  }

  /** Precision over any number of cycles: if nothing was handed over too late, the black objects not allocated during
      the last marking are exactly those reachable from its roots when it started. */
  lemma PreciseOverCycles(graph: Edges<Id>, mutators: nat, moves: seq<Move>)
    requires Legal(Init(graph, mutators), moves) && Careful(Init(graph, mutators), moves)
    requires Punctual(Init(graph, mutators), moves) && Exec(Init(graph, mutators), moves).collector.Finished?
    ensures var s := Exec(Init(graph, mutators), moves);
      forall x :: x !in s.hist.born ==> (x in s.black <==> Reachable(s.hist.snap, s.hist.roots, x))
  {
    hide Legal, Exec, Careful, Punctual, Reachable;
    OnlyTheSnapshotSurvives(graph, mutators, moves);
    PunctualLeavesNothing(graph, mutators, moves);
    var s := Exec(Init(graph, mutators), moves);
    assert s.hist.roots + s.hist.left == s.hist.roots;
  }
}

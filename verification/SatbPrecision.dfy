/** How much the concurrent marker keeps: nothing that was dead when marking started, provided mutators
    only handle references they can reach; and then sweeping the white objects is safe. */
module SatbPrecision {
  import opened Graphs
  import opened SatbMachine
  import opened SatbSafety

  /** `x` was reachable when marking started, from a root or from an id left over in the queues, or has been allocated
      since. */
  ghost predicate Live(s: State, x: Id) {
    Reachable(s.hist.snap, s.hist.roots + s.hist.left, x) || x in s.hist.born
  }

  ghost predicate Started(s: State) {
    s.hist.active || s.collector.Finished?
  }

  /** Mutators read, store, capture and grey only live references, also those they are writing when marking starts. */
  ghost predicate Handles(s: State, m: Move) {
    match m
    case StartMarking(roots) =>
      forall t :: 0 <= t < |s.mutators| ==>
        MutatorReaches(s.graph, Elems(roots) + Elems(s.remembered) + Elems(s.stack), s.mutators[t])
    case Barrier(_, was) => Started(s) ==> Live(s, was)
    case Write(_, u, _, v) => Started(s) ==> Live(s, u) && Live(s, v)
    case Allocate(id, fields) => Started(s) ==> forall v :: v in fields ==> v == id || Live(s, v)
    case Grey(id) => Started(s) ==> Live(s, id)
    case _ => true
  }

  ghost predicate MutatorReaches(g: Edges<Id>, roots: set<Id>, m: Mutator) {
    match m
    case Resting => true
    case Call(was, target) => Reachable(g, roots, was) && (target.Some? ==> Reachable(g, roots, target.value.value))
    case Record(was, target) => Reachable(g, roots, was) && (target.Some? ==> Reachable(g, roots, target.value.value))
    case Store(w) => Reachable(g, roots, w.value)
  }

  ghost predicate Careful(s: State, moves: seq<Move>)
    requires Legal(s, moves)
  {
    moves == [] ||
    (var n := |moves| - 1;
     Careful(s, moves[..n]) && Obeys(Exec(s, moves[..n]), moves[n]) && Handles(Exec(s, moves[..n]), moves[n]))
  }

  ghost predicate MutatorLive(s: State, m: Mutator) {
    match m
    case Resting => true
    case Call(was, target) => Live(s, was) && (target.Some? ==> Live(s, target.value.value))
    case Record(was, target) => Live(s, was) && (target.Some? ==> Live(s, target.value.value))
    case Store(w) => Live(s, w.value)
  }

  /** References lead from live objects to live objects. */
  ghost predicate LiveClosed(s: State) {
    forall u, v :: Live(s, u) && v in Refs(s.graph, u) ==> Live(s, v)
  }

  ghost predicate PreciseInv(s: State) {
    Started(s) ==>
      && LiveClosed(s)
      && (forall x :: x in s.black ==> Live(s, x))
      && (s.hist.active ==> forall x :: x in Noted(s) ==> Live(s, x))
      && (forall t {:trigger s.mutators[t]} :: 0 <= t < |s.mutators| ==> MutatorLive(s, s.mutators[t]))
  }

  lemma SameLive(s: State, s': State)
    requires s'.hist.snap == s.hist.snap && s'.hist.roots == s.hist.roots
    requires s'.hist.left == s.hist.left && s'.hist.born == s.hist.born
    ensures forall x :: Live(s', x) <==> Live(s, x)
  {
  }

  lemma StartPrecise(s: State, roots: seq<Id>)
    requires Enabled(s, StartMarking(roots)) && Obeys(s, StartMarking(roots)) && Handles(s, StartMarking(roots))
    ensures PreciseInv(Step(s, StartMarking(roots)))
  {
    var s' := Step(s, StartMarking(roots));
    var given := Elems(roots) + (Elems(s.remembered) + Elems(s.stack));
    assert given == Elems(roots) + Elems(s.remembered) + Elems(s.stack);
    forall x | x in given ensures Live(s', x) { RootsReachable(s.graph, given, x); }
    forall u, v | Live(s', u) && v in Refs(s'.graph, u) ensures Live(s', v) { StepReachable(s.graph, given, u, v); }
  }

  /** The reference the collector reads in this step. */
  function NewlyRead(s: State): set<Id> {
    if s.collector.ReadFields? && |s.collector.read| < |Refs(s.graph, s.collector.id)|
    then {Refs(s.graph, s.collector.id)[|s.collector.read|]}
    else {}
  }

  /** The collector only moves ids about, apart from the references it reads. */
  lemma CollectNotes(s: State)
    requires Enabled(s, Collect)
    ensures var s' := DoCollect(s);
      && s'.black <= Noted(s') <= Noted(s) + NewlyRead(s)
      && s'.graph == s.graph && s'.mutators == s.mutators
      && s'.hist == s.hist.(active := s'.hist.active) && (s'.hist.active || s'.collector.Finished?)
  {
    match s.collector
    case PushDrained(ids) => BothElems(s.stack, ids);
    case PushFinal(ids) => BothElems(s.stack, ids);
    case Pop => if s.stack != [] { LastElem(s.stack); }
    case ReadFields(id, read) =>
      if |read| < |Refs(s.graph, id)| { MoreElems(read, Refs(s.graph, id)[|read|]); }
    case PushChildren(todo) => if todo != [] { FirstElem(todo); MoreElems(s.stack, todo[0]); }
    case _ =>
  }

  /** Reading a field of a live object yields a live reference. */
  lemma CollectPrecise(s: State)
    requires PreciseInv(s) && Enabled(s, Collect) && (s.collector.ReadFields? ==> s.collector.id in s.black)
    ensures PreciseInv(DoCollect(s))
  {
    var s' := DoCollect(s);
    CollectNotes(s);
    hide DoCollect, Noted;
    SameLive(s, s');
    forall x | x in NewlyRead(s) ensures Live(s, x) {
      assert Live(s, s.collector.id) && x in Refs(s.graph, s.collector.id);
    }
    assert LiveClosed(s');
  }

  lemma StorePrecise(s: State, t: nat)
    requires PreciseInv(s) && Enabled(s, Mutate(t)) && s.mutators[t].Store?
    ensures PreciseInv(DoMutate(s, t))
  {
    var s', w := DoMutate(s, t), s.mutators[t].write;
    SameLive(s, s');
    if Started(s) {
      assert MutatorLive(s, s.mutators[t]);
      forall u, v | Live(s', u) && v in Refs(s'.graph, u) ensures Live(s', v) {
        assert v in Refs(s.graph, u) || v == w.value;
      }
    }
  }

  lemma MutatePrecise(s: State, t: nat)
    requires PreciseInv(s) && Enabled(s, Mutate(t)) && !s.mutators[t].Store?
    ensures PreciseInv(DoMutate(s, t))
  {
    var s' := DoMutate(s, t);
    SameLive(s, s');
    assert Started(s) ==> MutatorLive(s, s.mutators[t]);
    if s.mutators[t].Record? { MoreElems(s.remembered, s.mutators[t].was); }
    if Started(s) { assert LiveClosed(s'); }
  }

  lemma AllocatePrecise(s: State, id: Id, fields: seq<Id>)
    requires PreciseInv(s) && Enabled(s, Allocate(id, fields)) && Handles(s, Allocate(id, fields))
    ensures PreciseInv(Step(s, Allocate(id, fields)))
  {
    var s' := Step(s, Allocate(id, fields));
    forall x | Live(s, x) ensures Live(s', x) {}
    if Started(s) {
      forall u, v | Live(s', u) && v in Refs(s'.graph, u) ensures Live(s', v) {
        if u == id { assert v in fields; } else { assert Live(s, u) && v in Refs(s.graph, u); }
      }
      forall u | 0 <= u < |s.mutators| ensures MutatorLive(s', s'.mutators[u]) { assert MutatorLive(s, s.mutators[u]); }
      assert Noted(s') == Noted(s);
    }
  }

  lemma OtherPrecise(s: State, m: Move)
    requires PreciseInv(s) && Enabled(s, m) && Handles(s, m)
    requires m.PushRoot? || m.Spawn? || m.EndMarking? || m.EndSweeping? || m.Barrier? || m.Write? || m.Grey?
    ensures PreciseInv(Step(s, m))
  {
    var s' := Step(s, m);
    SameLive(s, s');
    match m
    case PushRoot => FirstElem(s.pending); MoreElems(s.stack, s.pending[0]);
    case Grey(id) => MoreElems(s.stack, id);
    case Write(_, u, f, _) => assert s.graph[u][f] in Refs(s.graph, u);
    case _ =>
  }

  lemma StepPrecise(s: State, m: Move)
    requires PreciseInv(s) && Inv(s) && Enabled(s, m) && Obeys(s, m) && Handles(s, m)
    ensures PreciseInv(Step(s, m))
  {
    hide PreciseInv;
    match m
    case StartMarking(roots) => StartPrecise(s, roots);
    case Collect => CollectPrecise(s);
    case Mutate(t) => if s.mutators[t].Store? { StorePrecise(s, t); } else { MutatePrecise(s, t); }
    case Allocate(id, fields) => AllocatePrecise(s, id, fields);
    case _ => OtherPrecise(s, m);
  }

  lemma {:induction false} CarefulIsObedient(s: State, moves: seq<Move>)
    requires Legal(s, moves) && Careful(s, moves)
    ensures Obedient(s, moves)
  {
    if moves != [] { CarefulIsObedient(s, moves[..|moves| - 1]); }
  }

  lemma {:induction false} RunPrecise(s: State, moves: seq<Move>)
    requires PreciseInv(s) && Inv(s) && Legal(s, moves) && Careful(s, moves)
    ensures PreciseInv(Exec(s, moves))
  {
    hide PreciseInv, Inv;
    if moves != [] {
      var n := |moves| - 1;
      RunPrecise(s, moves[..n]);
      CarefulIsObedient(s, moves[..n]);
      RunKeeps(s, moves[..n]);
      StepPrecise(Exec(s, moves[..n]), moves[n]);
    }
  }

  /** SATB precision: among the objects not allocated during marking, the black ones are exactly those that were
      reachable when marking started, from the roots or from an id that was left over in the queues. So nothing
      already dead then is kept, unless an earlier cycle was handed it too late. */
  lemma OnlyTheSnapshotSurvives(graph: Edges<Id>, mutators: nat, moves: seq<Move>)
    requires Legal(Init(graph, mutators), moves) && Careful(Init(graph, mutators), moves)
    requires Exec(Init(graph, mutators), moves).collector.Finished?
    ensures var s := Exec(Init(graph, mutators), moves);
      forall x :: x !in s.hist.born ==> (x in s.black <==> Reachable(s.hist.snap, s.hist.roots + s.hist.left, x))
  {
    hide Legal, Exec, Careful, Obedient, PreciseInv, Inv, Reachable;
    InitInv(graph, mutators);
    InitPrecise(graph, mutators);
    CarefulIsObedient(Init(graph, mutators), moves);
    RunPrecise(Init(graph, mutators), moves);
    SnapshotSurvives(graph, mutators, moves);
    var s := Exec(Init(graph, mutators), moves);
    BlackIsLive(s);
    forall x | Reachable(s.hist.snap, s.hist.roots + s.hist.left, x) ensures x in s.black {
      MoreRoots(s.hist.snap, s.hist.roots + s.hist.left, s.hist.seeds, x);
    }
  }

  lemma InitPrecise(graph: Edges<Id>, mutators: nat)
    ensures PreciseInv(Init(graph, mutators))
  {
  }

  lemma BlackIsLive(s: State)
    requires PreciseInv(s) && s.collector.Finished?
    ensures forall x :: x in s.black ==> Live(s, x)
    ensures LiveClosed(s)
  {
  }

  /** If the mutators have also greyed what they allocated, then no white object can be reached any more: not from
      the roots marking started with, nor from any other live reference a mutator may hold. */
  lemma WhiteIsGarbage(graph: Edges<Id>, mutators: nat, moves: seq<Move>, held: set<Id>, x: Id)
    requires Legal(Init(graph, mutators), moves) && Careful(Init(graph, mutators), moves)
    requires var s := Exec(Init(graph, mutators), moves);
      && s.collector.Finished? && s.hist.born <= s.hist.seeds
      && (forall r :: r in held ==> Live(s, r))
      && Reachable(s.graph, s.hist.roots + held, x)
    ensures x in Exec(Init(graph, mutators), moves).black
  {
    hide Legal, Exec, Careful, Obedient, PreciseInv, Inv, Reachable;
    InitInv(graph, mutators);
    InitPrecise(graph, mutators);
    CarefulIsObedient(Init(graph, mutators), moves);
    RunPrecise(Init(graph, mutators), moves);
    SnapshotSurvives(graph, mutators, moves);
    var s := Exec(Init(graph, mutators), moves);
    BlackIsLive(s);
    forall u | Live(s, u) ensures u in s.black {
      if u in s.hist.born { RootsReachable(s.hist.snap, s.hist.seeds, u); }
      else { MoreRoots(s.hist.snap, s.hist.roots + s.hist.left, s.hist.seeds, u); }
    }
    forall r | r in s.hist.roots ensures r in s.black { RootsReachable(s.hist.snap, s.hist.roots, r); }
    assert Closed(s.graph, s.black);
    ClosedHoldsReachable(s.graph, s.black, s.hist.roots + held, x);
  }

  // ---- a graph that does not change ----

  /** No mutator writes or allocates; barrier calls and greying may still happen. */
  predicate Still(moves: seq<Move>) {
    forall k :: 0 <= k < |moves| ==> !moves[k].Write? && !moves[k].Allocate?
  }

  ghost predicate StillInv(s: State) {
    && (forall t {:trigger s.mutators[t]} :: 0 <= t < |s.mutators| ==>
          && !s.mutators[t].Store?
          && ((s.mutators[t].Call? || s.mutators[t].Record?) ==> s.mutators[t].target.None?))
    && (Started(s) ==> s.graph == s.hist.snap && Within(s, s.black) && (s.hist.active ==> Within(s, Noted(s))))
    && (s.hist.active && s.collector.ReadFields? ==> s.collector.id in s.black)
  }

  /** Everything in `ids` can be reached from what was handed to the collector. */
  ghost predicate Within(s: State, ids: set<Id>) {
    forall x :: x in ids ==> Reachable(s.hist.snap, s.hist.seeds + s.hist.late, x)
  }

  lemma WithinMore(s: State, s': State, ids: set<Id>, id: Id)
    requires Within(s, ids) && s'.hist.snap == s.hist.snap
    requires s'.hist.seeds + s'.hist.late == s.hist.seeds + s.hist.late + {id}
    ensures Within(s', ids + {id})
  {
    forall x | x in ids + {id} ensures Reachable(s'.hist.snap, s'.hist.seeds + s'.hist.late, x) {
      if x == id { RootsReachable(s'.hist.snap, s'.hist.seeds + s'.hist.late, x); }
      else { MoreRoots(s.hist.snap, s.hist.seeds + s.hist.late, s'.hist.seeds + s'.hist.late, x); }
    }
  }

  lemma StartStill(s: State, roots: seq<Id>)
    requires StillInv(s) && Enabled(s, StartMarking(roots))
    ensures StillInv(Step(s, StartMarking(roots)))
  {
    var s' := Step(s, StartMarking(roots));
    forall x | x in Noted(s') ensures Reachable(s'.hist.snap, s'.hist.seeds + s'.hist.late, x) {
      RootsReachable(s'.hist.snap, s'.hist.seeds + s'.hist.late, x);
    }
  }

  lemma CollectStill(s: State)
    requires StillInv(s) && Enabled(s, Collect)
    ensures StillInv(DoCollect(s))
  {
    var s' := DoCollect(s);
    CollectNotes(s);
    ReadsBlack(s);
    hide DoCollect, Noted;
    forall x | x in NewlyRead(s) ensures Reachable(s.hist.snap, s.hist.seeds + s.hist.late, x) {
      StepReachable(s.hist.snap, s.hist.seeds + s.hist.late, s.collector.id, x);
    }
    assert Within(s', Noted(s) + NewlyRead(s));
  }

  lemma ReadsBlack(s: State)
    requires Enabled(s, Collect) && (s.collector.ReadFields? ==> s.collector.id in s.black)
    ensures var s' := DoCollect(s); s'.collector.ReadFields? ==> s'.collector.id in s'.black
  {
  }

  lemma HandOverStill(s: State, m: Move)
    requires StillInv(s) && Enabled(s, m) && (m.Grey? || m.Mutate?)
    ensures StillInv(Step(s, m))
  {
    var s' := Step(s, m);
    if m.Grey? {
      MoreElems(s.stack, m.id);
      if Started(s) { WithinMore(s, s', s.black, m.id); }
      if s.hist.active { WithinMore(s, s', Noted(s), m.id); }
    } else if s.mutators[m.t].Record? {
      var id := s.mutators[m.t].was;
      MoreElems(s.remembered, id);
      if Started(s) { WithinMore(s, s', s.black, id); }
      if s.hist.active { WithinMore(s, s', Noted(s), id); }
    }
  }

  lemma StepStill(s: State, m: Move)
    requires StillInv(s) && Enabled(s, m) && !m.Write? && !m.Allocate?
    ensures StillInv(Step(s, m))
  {
    match m
    case StartMarking(roots) => StartStill(s, roots);
    case Collect => CollectStill(s);
    case Grey(_) => HandOverStill(s, m);
    case Mutate(_) => HandOverStill(s, m);
    case PushRoot => FirstElem(s.pending); MoreElems(s.stack, s.pending[0]);
    case _ =>
  }

  lemma {:induction false} RunStill(s: State, moves: seq<Move>)
    requires StillInv(s) && Legal(s, moves) && Still(moves)
    ensures StillInv(Exec(s, moves))
  {
    hide StillInv;
    if moves != [] {
      var n := |moves| - 1;
      RunStill(s, moves[..n]);
      StepStill(Exec(s, moves[..n]), moves[n]);
    }
  }

  /** On a graph that does not change, every interleaving returns the same set: exactly what can be reached from
      the roots and the captures. Ids handed over too late to be promised may add what they reach, and no more. */
  lemma StillGraphIsExact(graph: Edges<Id>, mutators: nat, moves: seq<Move>)
    requires Legal(Init(graph, mutators), moves) && Obedient(Init(graph, mutators), moves) && Still(moves)
    requires Exec(Init(graph, mutators), moves).collector.Finished?
    ensures var s := Exec(Init(graph, mutators), moves);
      && s.hist.snap == s.graph
      && (forall x :: Reachable(s.graph, s.hist.seeds, x) ==> x in s.black)
      && (forall x :: x in s.black ==> Reachable(s.graph, s.hist.seeds + s.hist.late, x))
      && (s.hist.late == {} ==> forall x :: x in s.black <==> Reachable(s.graph, s.hist.seeds, x))
  {
    RunStill(Init(graph, mutators), moves);
    SnapshotSurvives(graph, mutators, moves);
    var s := Exec(Init(graph, mutators), moves);
    if s.hist.late == {} { assert s.hist.seeds + s.hist.late == s.hist.seeds; }
  }

  // ---- no mutator at all ----

  /** Only the collector and the orchestrator move. */
  predicate Quiet(moves: seq<Move>) {
    Still(moves) && forall k :: 0 <= k < |moves| ==> !moves[k].Barrier? && !moves[k].Grey?
  }

  ghost predicate QuietInv(graph: Edges<Id>, s: State) {
    && s.graph == graph && s.remembered == []
    && (forall t {:trigger s.mutators[t]} :: 0 <= t < |s.mutators| ==> s.mutators[t].Resting?)
    && (Started(s) ==> s.hist.seeds == s.hist.roots && s.hist.late == {})
    && (!s.hist.active ==> s.stack == [] && s.pending == [])
    && (s.hist.active && !s.collector.Waiting? ==> s.pending == [])
    && (s.collector.PushDrained? || s.collector.PushFinal? ==> s.collector.ids == [])
  }

  lemma StepQuiet(graph: Edges<Id>, s: State, m: Move)
    requires QuietInv(graph, s) && Enabled(s, m) && !m.Write? && !m.Allocate? && !m.Barrier? && !m.Grey?
    ensures QuietInv(graph, Step(s, m)) && Obeys(s, m)
  {
  }

  lemma {:induction false} RunQuiet(graph: Edges<Id>, mutators: nat, moves: seq<Move>)
    requires Legal(Init(graph, mutators), moves) && Quiet(moves)
    ensures QuietInv(graph, Exec(Init(graph, mutators), moves)) && Obedient(Init(graph, mutators), moves)
  {
    hide Step, Enabled, Obeys;
    if moves != [] {
      var n := |moves| - 1;
      RunQuiet(graph, mutators, moves[..n]);
      StepQuiet(graph, Exec(Init(graph, mutators), moves[..n]), moves[n]);
    }
  }

  /** Left alone, the collector returns exactly what can be reached from the roots, however its steps and those of the
      orchestrator interleave. */
  lemma QuietIsExact(graph: Edges<Id>, mutators: nat, moves: seq<Move>)
    requires Legal(Init(graph, mutators), moves) && Quiet(moves)
    requires Exec(Init(graph, mutators), moves).collector.Finished?
    ensures var s := Exec(Init(graph, mutators), moves);
      forall x :: x in s.black <==> Reachable(graph, s.hist.roots, x)
  {
    hide Reachable, Legal, Exec;
    RunQuiet(graph, mutators, moves);
    StillGraphIsExact(graph, mutators, moves);
  }

  // ---- each object is scanned once ----

  /** The collector takes an id off the stack and starts to read its fields. */
  predicate StartsScan(s: State, m: Move) {
    m.Collect? && Enabled(s, m) && s.collector.Pop? && DoCollect(s).collector.ReadFields?
  }

  /** The number of scans since marking last started. */
  function Scans(s: State, moves: seq<Move>): nat
    requires Legal(s, moves)
  {
    if moves == [] then 0
    else
      var n := |moves| - 1;
      if moves[n].StartMarking? then 0
      else Scans(s, moves[..n]) + (if StartsScan(Exec(s, moves[..n]), moves[n]) then 1 else 0)
  }

  /** Only a scan marks, and it marks one id that was not marked. */
  lemma OnlyScansMark(s: State, m: Move)
    requires Enabled(s, m) && !m.StartMarking?
    ensures StartsScan(s, m) ==> s.stack != [] && s.stack[|s.stack| - 1] !in s.black
    ensures Step(s, m).black == if StartsScan(s, m) then s.black + {s.stack[|s.stack| - 1]} else s.black
  {
  }

  /** Whatever the mutators do, the collector scans as many times as there are marked ids: each of them once. */
  lemma {:induction false} EachScannedOnce(graph: Edges<Id>, mutators: nat, moves: seq<Move>)
    requires Legal(Init(graph, mutators), moves)
    ensures Scans(Init(graph, mutators), moves) == |Exec(Init(graph, mutators), moves).black|
  {
    hide Step, Enabled, StartsScan;
    if moves != [] {
      var n := |moves| - 1;
      var s := Exec(Init(graph, mutators), moves[..n]);
      EachScannedOnce(graph, mutators, moves[..n]);
      if moves[n].StartMarking? { MarksNothing(s, moves[n].roots); } else { MarksOne(s, moves[n]); }
    }
  }

  lemma MarksNothing(s: State, roots: seq<Id>)
    requires Enabled(s, StartMarking(roots))
    ensures Step(s, StartMarking(roots)).black == {}
  {
  }

  lemma MarksOne(s: State, m: Move)
    requires Enabled(s, m) && !m.StartMarking?
    ensures |Step(s, m).black| == |s.black| + if StartsScan(s, m) then 1 else 0
  {
    hide Step;
    OnlyScansMark(s, m);
  }
}

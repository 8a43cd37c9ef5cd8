/** The snapshot-at-the-beginning guarantee: whatever the mutators overwrite meanwhile, every object
    reachable when marking started is black when the collector returns. */
module SatbSafety {
  import opened Common
  import opened Graphs
  import opened SatbMachine

  /** Ids the collector has taken off a shared list and not put anywhere yet. */
  function InFlight(c: Collector): set<Id> {
    match c
    case PushDrained(ids) => Elems(ids)
    case ReadFields(_, read) => Elems(read)
    case PushChildren(todo) => Elems(todo)
    case PushFinal(ids) => Elems(ids)
    case _ => {}
  }

  /** Ids that are black or on their way to the collector. */
  function Noted(s: State): set<Id> {
    s.black + Elems(s.stack) + Elems(s.remembered) + Elems(s.pending) + InFlight(s.collector)
  }

  /** Field `f` of object `u` existed when marking started. */
  predicate SnapField(s: State, u: Id, f: nat) {
    u in s.hist.snap && f < |s.hist.snap[u]|
  }

  /** The reference that field held then. */
  function SnapRef(s: State, u: Id, f: nat): Id
    requires SnapField(s, u, f)
  {
    s.hist.snap[u][f]
  }

  /** How many fields of black object `u` the collector has read. */
  predicate Scanned(c: Collector, u: Id, f: nat) {
    c.ReadFields? && c.id == u ==> f < |c.read|
  }

  // ---- the invariant of a marking cycle ----

  /** Objects of the snapshot keep their number of fields. */
  ghost predicate SameShape(s: State) {
    forall u :: u in s.hist.snap ==> u in s.graph && |s.graph[u]| == |s.hist.snap[u]|
  }

  /** An overwritten snapshot reference has been noted. */
  ghost predicate LostIsNoted(s: State) {
    forall u: Id, f: nat :: SnapField(s, u, f) && u in s.graph && f < |s.graph[u]| && s.graph[u][f] != SnapRef(s, u, f) ==>
      SnapRef(s, u, f) in Noted(s)
  }

  /** The snapshot references of a black object, as far as it has been scanned, have been noted. */
  ghost predicate ScannedIsNoted(s: State) {
    forall u: Id, f: nat :: u in s.black && SnapField(s, u, f) && Scanned(s.collector, u, f) ==> SnapRef(s, u, f) in Noted(s)
  }

  /** A mutator inside a write holds the snapshot reference, or it has been noted. */
  ghost predicate MutatorHolds(s: State, m: Mutator) {
    match m
    case Resting => true
    case Call(was, target) => target.Some? ==> HoldsRef(s, target.value, Some(was))
    case Record(was, target) => target.Some? ==> HoldsRef(s, target.value, Some(was))
    case Store(w) => HoldsRef(s, w, None)
  }

  ghost predicate HoldsRef(s: State, w: Target, was: Option<Id>) {
    SnapField(s, w.source, w.index) ==>
      was == Some(SnapRef(s, w.source, w.index)) || SnapRef(s, w.source, w.index) in Noted(s)
  }

  ghost predicate MutatorsHold(s: State) {
    && (forall t {:trigger s.mutators[t]} :: 0 <= t < |s.mutators| ==> MutatorHolds(s, s.mutators[t]))
    && (InWindow(s) ==> forall t {:trigger s.mutators[t]} :: 0 <= t < |s.mutators| ==> !Writing(s.mutators[t]))
  }

  /** From its final phase check on, the collector sees that marking has ended. */
  ghost predicate Closing(s: State) {
    && (s.collector.FinalDrain? || s.collector.CheckStack? ==> !s.phase.Marking?)
    && (!s.collector.Waiting? ==> s.pending == [])
    && (s.collector.ReadFields? ==> s.collector.id in s.black)
  }

  /** When the collector is about to look at the stack one last time, nothing depends on the remembered set. */
  ghost predicate Settled(s: State) {
    s.collector.CheckStack? ==>
      var done := s.black + Elems(s.stack);
      && s.hist.seeds <= done
      && (forall u: Id, f: nat :: u in s.black && SnapField(s, u, f) ==> SnapRef(s, u, f) in done)
  }

  ghost predicate CycleInv(s: State) {
    && SameShape(s) && LostIsNoted(s) && ScannedIsNoted(s) && MutatorsHold(s)
    && Closing(s) && Settled(s)
    && s.hist.roots + s.hist.left <= s.hist.seeds <= Noted(s)
  }

  /** What the collector returned: every seed is black, and no black object has a white snapshot reference. */
  ghost predicate Result(s: State) {
    s.hist.roots + s.hist.left <= s.hist.seeds <= s.black && Closed(s.hist.snap, s.black)
  }

  ghost predicate Inv(s: State) {
    && (s.hist.active ==> CycleInv(s) && !s.collector.Finished?)
    && (s.collector.Finished? ==> Result(s) && !s.phase.Marking?)
  }

  lemma InitInv(graph: Edges<Id>, mutators: nat)
    ensures Inv(Init(graph, mutators))
  {
  }

  lemma MoreElems(xs: seq<Id>, x: Id)
    ensures Elems(xs + [x]) == Elems(xs) + {x}
  {
  }

  lemma BothElems(xs: seq<Id>, ys: seq<Id>)
    ensures Elems(xs + ys) == Elems(xs) + Elems(ys)
  {
  }

  lemma LastElem(xs: seq<Id>)
    requires xs != []
    ensures Elems(xs) == Elems(xs[..|xs| - 1]) + {xs[|xs| - 1]}
  {
    assert xs == xs[..|xs| - 1] + [xs[|xs| - 1]];
  }

  lemma FirstElem(xs: seq<Id>)
    requires xs != []
    ensures Elems(xs) == {xs[0]} + Elems(xs[1..])
  {
    assert xs == [xs[0]] + xs[1..];
  }

  // ---- steps that change neither the graph nor a mutator ----

  /** Nothing that was noted is forgotten, and what is new to scan has been noted. */
  lemma NotedKeeps(s: State, s': State)
    requires CycleInv(s) && s'.hist.snap == s.hist.snap && s'.graph == s.graph && s'.mutators == s.mutators
    requires Noted(s) <= Noted(s')
    requires InWindow(s') ==> InWindow(s) || forall t :: 0 <= t < |s.mutators| ==> !Writing(s.mutators[t])
    requires forall u: Id, f: nat :: u in s'.black && SnapField(s, u, f) && Scanned(s'.collector, u, f) ==>
      (u in s.black && Scanned(s.collector, u, f)) || SnapRef(s, u, f) in Noted(s')
    ensures SameShape(s') && LostIsNoted(s') && ScannedIsNoted(s') && MutatorsHold(s')
  {
    forall t | 0 <= t < |s.mutators| ensures MutatorHolds(s', s'.mutators[t]) {
      assert MutatorHolds(s, s.mutators[t]);
    }
  }

  lemma SettledKeeps(s: State, s': State)
    requires Settled(s) && s'.collector == s.collector && s'.black == s.black && s'.hist.snap == s.hist.snap
    requires Elems(s.stack) <= Elems(s'.stack) && (s.collector.CheckStack? ==> s'.hist.seeds <= s.hist.seeds)
    ensures Settled(s')
  {
    if s.collector.CheckStack? {
      forall u: Id, f: nat | u in s'.black && SnapField(s', u, f) ensures SnapRef(s', u, f) in s'.black + Elems(s'.stack) {
        assert SnapField(s, u, f) && SnapRef(s', u, f) == SnapRef(s, u, f);
      }
    }
  }

  lemma StartKeeps(s: State, roots: seq<Id>)
    requires Inv(s) && Enabled(s, StartMarking(roots)) && Obeys(s, StartMarking(roots))
    ensures Inv(Step(s, StartMarking(roots)))
  {
  }

  lemma PushRootKeeps(s: State)
    requires Inv(s) && Enabled(s, PushRoot)
    ensures Inv(Step(s, PushRoot))
  {
    var s' := Step(s, PushRoot);
    FirstElem(s.pending);
    MoreElems(s.stack, s.pending[0]);
    if s.hist.active { NotedKeeps(s, s'); }
  }

  lemma PhaseKeeps(s: State, m: Move)
    requires Inv(s) && Enabled(s, m) && Obeys(s, m) && (m.Spawn? || m.EndMarking? || m.EndSweeping?)
    ensures Inv(Step(s, m))
  {
    var s' := Step(s, m);
    if s.hist.active { NotedKeeps(s, s'); }
  }

  lemma GreyKeeps(s: State, id: Id)
    requires Inv(s)
    ensures Inv(Step(s, Grey(id)))
  {
    var s' := Step(s, Grey(id));
    MoreElems(s.stack, id);
    if s.hist.active { NotedKeeps(s, s'); SettledKeeps(s, s'); }
  }

  // ---- the collector ----

  lemma DrainKeeps(s: State)
    requires Inv(s) && Enabled(s, Collect)
    requires s.collector.Drain? || s.collector.PushDrained? || s.collector.CheckPhase? || s.collector.PushFinal?
    ensures Inv(DoCollect(s))
  {
    var s' := DoCollect(s);
    if s.collector.PushDrained? || s.collector.PushFinal? { BothElems(s.stack, s.collector.ids); }
    NotedKeeps(s, s');
  }

  lemma PopKeeps(s: State)
    requires Inv(s) && Enabled(s, Collect) && s.collector.Pop?
    ensures Inv(DoPop(s))
  {
    var s' := DoPop(s);
    if s.stack != [] { LastElem(s.stack); }
    NotedKeeps(s, s');
  }

  /** A field read by the scan either holds the snapshot reference, or that reference was noted when it was lost. */
  lemma ReadKeeps(s: State)
    requires Inv(s) && Enabled(s, Collect) && s.collector.ReadFields?
    ensures Inv(DoRead(s))
  {
    var s' := DoRead(s);
    var ReadFields(id, read) := s.collector;
    if |read| < |Refs(s.graph, id)| { MoreElems(read, Refs(s.graph, id)[|read|]); }
    NotedKeeps(s, s');
  }

  lemma PushChildKeeps(s: State)
    requires Inv(s) && Enabled(s, Collect) && s.collector.PushChildren?
    ensures Inv(DoPushChild(s))
  {
    var s', todo := DoPushChild(s), s.collector.todo;
    if todo != [] { FirstElem(todo); MoreElems(s.stack, todo[0]); }
    NotedKeeps(s, s');
  }

  lemma FinalDrainKeeps(s: State)
    requires Inv(s) && Enabled(s, Collect) && s.collector.FinalDrain?
    ensures Inv(DoFinalDrain(s))
  {
    NotedKeeps(s, DoFinalDrain(s));
  }

  lemma CheckStackKeeps(s: State)
    requires Inv(s) && Enabled(s, Collect) && s.collector.CheckStack?
    ensures Inv(DoCheckStack(s))
  {
    var s' := DoCheckStack(s);
    if s.stack == [] {
      forall u, v | u in s.black && v in Refs(s.hist.snap, u) ensures v in s.black {
        var f: nat :| f < |Refs(s.hist.snap, u)| && Refs(s.hist.snap, u)[f] == v;
        assert SnapField(s, u, f) && SnapRef(s, u, f) == v;
      }
    } else {
      NotedKeeps(s, s');
    }
  }

  lemma CollectKeeps(s: State)
    requires Inv(s) && Enabled(s, Collect)
    ensures Inv(DoCollect(s))
  {
    hide Inv;
    match s.collector
    case Pop => PopKeeps(s);
    case ReadFields(_, _) => ReadKeeps(s);
    case PushChildren(_) => PushChildKeeps(s);
    case FinalDrain => FinalDrainKeeps(s);
    case CheckStack => CheckStackKeeps(s);
    case _ => DrainKeeps(s);
  }

  // ---- the mutators ----

  lemma CallKeeps(s: State, m: Move)
    requires Inv(s) && Enabled(s, m) && Obeys(s, m) && (m.Barrier? || m.Write?)
    ensures Inv(Step(s, m))
  {
    var s' := Step(s, m);
    if s.hist.active {
      SettledKeeps(s, s');
      assert Noted(s') == Noted(s);
      forall t | 0 <= t < |s'.mutators| ensures MutatorHolds(s', s'.mutators[t]) {
        if t != m.t { assert MutatorHolds(s, s.mutators[t]); }
      }
    }
  }

  lemma MutateKeeps(s: State, t: nat)
    requires Inv(s) && Enabled(s, Mutate(t)) && !s.mutators[t].Store?
    ensures Inv(DoMutate(s, t))
  {
    var s' := DoMutate(s, t);
    if s.mutators[t].Record? { MoreElems(s.remembered, s.mutators[t].was); }
    if s.hist.active {
      SettledKeeps(s, s');
      assert Noted(s) <= Noted(s');
      forall u | 0 <= u < |s'.mutators| ensures MutatorHolds(s', s'.mutators[u]) {
        assert MutatorHolds(s, s.mutators[u]);
      }
    }
  }

  /** The overwrite itself: the snapshot reference it may destroy has been noted. */
  lemma StoreKeeps(s: State, t: nat)
    requires Inv(s) && Enabled(s, Mutate(t)) && s.mutators[t].Store?
    ensures Inv(DoMutate(s, t))
  {
    var s', w := DoMutate(s, t), s.mutators[t].write;
    if s.hist.active {
      SettledKeeps(s, s');
      assert MutatorHolds(s, s.mutators[t]);
      assert Noted(s') == Noted(s);
      forall u | 0 <= u < |s'.mutators| ensures MutatorHolds(s', s'.mutators[u]) {
        assert MutatorHolds(s, s.mutators[u]);
      }
    }
  }

  lemma AllocateKeeps(s: State, id: Id, fields: seq<Id>)
    requires Inv(s) && Enabled(s, Allocate(id, fields))
    ensures Inv(Step(s, Allocate(id, fields)))
  {
    var s' := Step(s, Allocate(id, fields));
    if s.hist.active {
      SettledKeeps(s, s');
      assert Noted(s') == Noted(s);
      forall u | 0 <= u < |s'.mutators| ensures MutatorHolds(s', s'.mutators[u]) {
        assert MutatorHolds(s, s.mutators[u]);
      }
    }
  }

  // ---- every run ----

  lemma StepKeeps(s: State, m: Move)
    requires Inv(s) && Enabled(s, m) && Obeys(s, m)
    ensures Inv(Step(s, m))
  {
    hide Inv;
    match m
    case StartMarking(roots) => StartKeeps(s, roots);
    case PushRoot => PushRootKeeps(s);
    case Spawn => PhaseKeeps(s, m);
    case EndMarking(_) => PhaseKeeps(s, m);
    case EndSweeping => PhaseKeeps(s, m);
    case Collect => CollectKeeps(s);
    case Barrier(_, _) => CallKeeps(s, m);
    case Write(_, _, _, _) => CallKeeps(s, m);
    case Mutate(t) => if s.mutators[t].Store? { StoreKeeps(s, t); } else { MutateKeeps(s, t); }
    case Allocate(id, fields) => AllocateKeeps(s, id, fields);
    case Grey(id) => GreyKeeps(s, id);
  }

  lemma {:induction false} RunKeeps(s: State, moves: seq<Move>)
    requires Inv(s) && Legal(s, moves) && Obedient(s, moves)
    ensures Inv(Exec(s, moves))
  {
    hide Inv;
    if moves != [] {
      var n := |moves| - 1;
      RunKeeps(s, moves[..n]);
      StepKeeps(Exec(s, moves[..n]), moves[n]);
    }
  }

  /** SATB safety, for every interleaving of the collector with any number of mutators that obey the handshake:
      when the collector has returned, every object that was reachable when marking started, from the roots,
      from an id left over in the queues or from one captured since, is black. */
  lemma SnapshotSurvives(graph: Edges<Id>, mutators: nat, moves: seq<Move>)
    requires Legal(Init(graph, mutators), moves) && Obedient(Init(graph, mutators), moves)
    requires Exec(Init(graph, mutators), moves).collector.Finished?
    ensures var s := Exec(Init(graph, mutators), moves);
      && s.hist.roots + s.hist.left <= s.hist.seeds
      && (forall x :: Reachable(s.hist.snap, s.hist.roots, x) ==> x in s.black)
      && (forall x :: Reachable(s.hist.snap, s.hist.seeds, x) ==> x in s.black)
  {
    InitInv(graph, mutators);
    RunKeeps(Init(graph, mutators), moves);
    var s := Exec(Init(graph, mutators), moves);
    forall x | Reachable(s.hist.snap, s.hist.seeds, x) ensures x in s.black {
      ClosedHoldsReachable(s.hist.snap, s.black, s.hist.seeds, x);
    }
    forall x | Reachable(s.hist.snap, s.hist.roots, x) ensures x in s.black {
      ClosedHoldsReachable(s.hist.snap, s.black, s.hist.roots, x);
    }
  }

  // ---- captures, whatever the mutators do ----

  /** Without any handshake: what was handed to the collector while the phase was Marking is on its way. */
  ghost predicate CaptureInv(s: State) {
    && (s.hist.active ==>
          && !s.collector.Finished? && Closing(s)
          && s.hist.seeds <= Noted(s)
          && (s.collector.CheckStack? ==> s.hist.seeds <= s.black + Elems(s.stack)))
    && (s.collector.Finished? ==> s.hist.seeds <= s.black && !s.phase.Marking?)
  }

  lemma CollectKeepsCaptures(s: State)
    requires CaptureInv(s) && Enabled(s, Collect)
    ensures CaptureInv(DoCollect(s))
  {
    match s.collector
    case PushDrained(ids) => BothElems(s.stack, ids);
    case PushFinal(ids) => BothElems(s.stack, ids);
    case Pop => if s.stack != [] { LastElem(s.stack); }
    case ReadFields(id, read) =>
      if |read| < |Refs(s.graph, id)| { MoreElems(read, Refs(s.graph, id)[|read|]); }
    case PushChildren(todo) => if todo != [] { FirstElem(todo); MoreElems(s.stack, todo[0]); }
    case _ =>
  }

  lemma StepKeepsCaptures(s: State, m: Move)
    requires CaptureInv(s) && Enabled(s, m)
    ensures CaptureInv(Step(s, m))
  {
    match m
    case Collect => CollectKeepsCaptures(s);
    case PushRoot => FirstElem(s.pending); MoreElems(s.stack, s.pending[0]);
    case Grey(id) => MoreElems(s.stack, id);
    case Mutate(t) => if s.mutators[t].Record? { MoreElems(s.remembered, s.mutators[t].was); }
    case _ =>
  }

  lemma {:induction false} RunKeepsCaptures(s: State, moves: seq<Move>)
    requires CaptureInv(s) && Legal(s, moves)
    ensures CaptureInv(Exec(s, moves))
  {
    hide CaptureInv;
    if moves != [] {
      var n := |moves| - 1;
      RunKeepsCaptures(s, moves[..n]);
      StepKeepsCaptures(Exec(s, moves[..n]), moves[n]);
    }
  }

  /** Capture completeness, with no assumption on the mutators: every root, and every id recorded or greyed
      before the phase left Marking, is black when the collector has returned. */
  lemma CapturesSurvive(graph: Edges<Id>, mutators: nat, moves: seq<Move>)
    requires Legal(Init(graph, mutators), moves) && Exec(Init(graph, mutators), moves).collector.Finished?
    ensures var s := Exec(Init(graph, mutators), moves); s.hist.seeds <= s.black
  {
    RunKeepsCaptures(Init(graph, mutators), moves);
  }
}

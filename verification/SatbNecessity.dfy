/** Runs that show what the theorems cannot promise. Each clause of the handshake is needed: a run that breaks just that
    clause, once, loses a live object. In these runs object 1 refers to object 2, marking starts with root 1, and a
    mutator overwrites that reference. */
module SatbNecessity {
  import opened Common
  import opened Graphs
  import opened SatbMachine
  import opened SatbSafety
  import opened SatbTermination
  import opened SatbBarrier
  import opened SatbProgress

  const TWO: Edges<Id> := map[1 := [2], 2 := []]
  const ONE: Edges<Id> := map[1 := [1], 2 := []]

  /** The moves of a run that break the handshake. */
  function Offences(s: State, moves: seq<Move>): seq<Move>
    requires Legal(s, moves)
  {
    if moves == [] then []
    else
      var n := |moves| - 1;
      Offences(s, moves[..n]) + (if Obeys(Exec(s, moves[..n]), moves[n]) then [] else [moves[n]])
  }

  ghost predicate At(moves: seq<Move>, s: State, offences: seq<Move>) {
    Legal(Init(TWO, 2), moves) && Exec(Init(TWO, 2), moves) == s && Offences(Init(TWO, 2), moves) == offences
  }

  /** One more move. */
  lemma Go(moves: seq<Move>, s: State, bad: seq<Move>, m: Move) returns (moves': seq<Move>, s': State, bad': seq<Move>)
    requires At(moves, s, bad) && Enabled(s, m)
    ensures s' == Step(s, m) && bad' == (if Obeys(s, m) then bad else bad + [m]) && At(moves', s', bad')
  {
    moves', s' := moves + [m], Step(s, m);
    bad' := if Obeys(s, m) then bad else bad + [m];
    assert moves'[..|moves|] == moves;
    assert bad + [] == bad;
  }

  lemma Begin() returns (moves: seq<Move>, s: State, bad: seq<Move>)
    ensures s == Init(TWO, 2) && bad == [] && At(moves, s, bad)
  {
    moves, s, bad := [], Init(TWO, 2), [];
  }

  /** Marking has ended, the reference is gone, nothing has been recorded, and the root is on the stack. */
  predicate Doomed(s: State) {
    && s.hist.active && s.phase.Sweeping? && s.collector.Drain? && s.stack == [1] && s.remembered == []
    && s.black == {} && s.graph == ONE
    && s.hist.snap == TWO && s.hist.roots == {1}
  }

  /** The collector scans object 1 and never comes across object 2. */
  lemma Sweeps(moves: seq<Move>, s: State, bad: seq<Move>) returns (moves': seq<Move>, s': State)
    requires At(moves, s, bad) && Doomed(s)
    ensures At(moves', s', bad) && s'.collector.Finished? && s'.black == {1}
    ensures s'.hist.snap == TWO && s'.hist.roots == {1}
  {
    hide At;
    var b;
    moves', s', b := Go(moves, s, bad, Collect);
    moves', s', b := Go(moves', s', b, Collect);
    assert s'.collector == ReadFields(1, []);
    moves', s', b := Go(moves', s', b, Collect);
    moves', s', b := Go(moves', s', b, Collect);
    assert s'.collector == PushChildren([1]);
    moves', s', b := Go(moves', s', b, Collect);
    moves', s', b := Go(moves', s', b, Collect);
    moves', s', b := Go(moves', s', b, Collect);
    moves', s', b := Go(moves', s', b, Collect);
    moves', s', b := Go(moves', s', b, Collect);
    moves', s', b := Go(moves', s', b, Collect);
    moves', s', b := Go(moves', s', b, Collect);
  }

  /** Object 2 was reachable and is not in the result. */
  ghost predicate LosesTwo(moves: seq<Move>) {
    Legal(Init(TWO, 2), moves) &&
    var s := Exec(Init(TWO, 2), moves);
    s.collector.Finished? && Reachable(s.hist.snap, s.hist.roots, 2) && 2 !in s.black
  }

  lemma TwoIsLost(moves: seq<Move>, s: State, bad: seq<Move>)
    requires At(moves, s, bad) && s.collector.Finished? && s.black == {1} && s.hist.snap == TWO && s.hist.roots == {1}
    ensures LosesTwo(moves)
  {
    RootsReachable(TWO, {1}, 1);
    assert TWO[1][0] == 2;
    StepReachable(TWO, {1}, 1, 2);
  }

  /** The tail of the three runs without a capture: push the root, spawn the collector, let it finish. */
  lemma FinishRun(moves: seq<Move>, s: State, bad: seq<Move>) returns (moves': seq<Move>)
    requires At(moves, s, bad) && s.phase.Sweeping? && s.hist.active && s.collector.Waiting? && s.pending == [1]
    requires s.stack == [] && s.remembered == [] && s.black == {} && s.graph == ONE
    requires s.hist.snap == TWO && s.hist.roots == {1}
    ensures LosesTwo(moves') && Offences(Init(TWO, 2), moves') == bad
  {
    var s', b := s, bad;
    moves', s', b := Go(moves, s, bad, PushRoot);
    moves', s', b := Go(moves', s', b, Spawn);
    moves', s' := Sweeps(moves', s', b);
    TwoIsLost(moves', s', b);
  }

  lemma Overwriting()
    ensures Overwritten(TWO, Target(1, 0, 1)) == Overwritten(ONE, Target(1, 0, 1)) == ONE
    ensures Overwritten(ONE, Target(1, 0, 2)) == TWO
  {
    assert TWO[1][0 := 1] == ONE[1][0 := 1] == [1] && ONE[1][0 := 2] == [2];
    assert ONE[1 := [1]] == ONE && ONE[1 := [2]] == TWO;
  }

  /** Marking starts while a mutator that saw the phase Idle is about to store. */
  lemma StartMidWrite() returns (moves: seq<Move>)
    ensures LosesTwo(moves) && Offences(Init(TWO, 2), moves) == [StartMarking([1])]
  {
    hide At;
    Overwriting();
    var s, bad;
    moves, s, bad := Begin();
    moves, s, bad := Go(moves, s, bad, Write(0, 1, 0, 1));
    moves, s, bad := Go(moves, s, bad, Mutate(0));
    moves, s, bad := Go(moves, s, bad, StartMarking([1]));
    moves, s, bad := Go(moves, s, bad, Mutate(0));
    moves, s, bad := Go(moves, s, bad, EndMarking(Sweeping));
    moves := FinishRun(moves, s, bad);
  }

  /** The phase leaves Marking while a mutator that has called the barrier has not loaded it yet. */
  lemma EndMidCall() returns (moves: seq<Move>)
    ensures LosesTwo(moves) && Offences(Init(TWO, 2), moves) == [EndMarking(Sweeping)]
  {
    hide At;
    Overwriting();
    var s, bad;
    moves, s, bad := Begin();
    moves, s, bad := Go(moves, s, bad, StartMarking([1]));
    moves, s, bad := Go(moves, s, bad, Write(0, 1, 0, 1));
    moves, s, bad := Go(moves, s, bad, EndMarking(Sweeping));
    moves, s, bad := Go(moves, s, bad, Mutate(0));
    moves, s, bad := Go(moves, s, bad, Mutate(0));
    moves := FinishRun(moves, s, bad);
  }

  /** A mutator starts a write after the phase has left Marking and before the collector returns. */
  lemma WriteInWindow() returns (moves: seq<Move>)
    ensures LosesTwo(moves) && Offences(Init(TWO, 2), moves) == [Write(0, 1, 0, 1)]
  {
    hide At;
    Overwriting();
    var s, bad;
    moves, s, bad := Begin();
    moves, s, bad := Go(moves, s, bad, StartMarking([1]));
    moves, s, bad := Go(moves, s, bad, EndMarking(Sweeping));
    moves, s, bad := Go(moves, s, bad, Write(0, 1, 0, 1));
    moves, s, bad := Go(moves, s, bad, Mutate(0));
    moves, s, bad := Go(moves, s, bad, Mutate(0));
    moves := FinishRun(moves, s, bad);
  }

  /** The tail of the run with a useless capture: the root is on the stack twice. */
  lemma FinishStale(moves: seq<Move>, s: State, bad: seq<Move>) returns (moves': seq<Move>)
    requires At(moves, s, bad) && s.phase.Sweeping? && s.hist.active && s.collector.Waiting? && s.pending == [1]
    requires s.stack == [] && s.remembered == [1] && s.black == {} && s.graph == ONE
    requires s.hist.snap == TWO && s.hist.roots == {1}
    ensures LosesTwo(moves') && Offences(Init(TWO, 2), moves') == bad
  {
    var s', b;
    moves', s', b := Go(moves, s, bad, PushRoot);
    moves', s', b := Go(moves', s', b, Spawn);
    moves', s', b := ScansRoot(moves', s', b);
    moves', s' := Leaves(moves', s', b);
    TwoIsLost(moves', s', b);
  }

  lemma ScansRoot(moves: seq<Move>, s: State, bad: seq<Move>) returns (moves': seq<Move>, s': State, b: seq<Move>)
    requires At(moves, s, bad) && s.hist.active && s.phase.Sweeping? && s.collector.Drain? && s.graph == ONE
    requires s.stack == [1] && s.remembered == [1] && s.black == {}
    ensures At(moves', s', b) && b == bad && s'.collector.Drain? && s'.stack == [1] && s'.remembered == [] && s'.black == {1}
    ensures s'.hist == s.hist && s'.phase == s.phase
  {
    hide At;
    moves', s', b := Go(moves, s, bad, Collect);
    moves', s', b := Go(moves', s', b, Collect);
    moves', s', b := Go(moves', s', b, Collect);
    assert s'.collector == ReadFields(1, []);
    moves', s', b := Go(moves', s', b, Collect);
    moves', s', b := Go(moves', s', b, Collect);
    assert s'.collector == PushChildren([1]);
    moves', s', b := Go(moves', s', b, Collect);
    moves', s', b := Go(moves', s', b, Collect);
  }

  lemma Leaves(moves: seq<Move>, s: State, bad: seq<Move>) returns (moves': seq<Move>, s': State)
    requires At(moves, s, bad) && s.hist.active && s.phase.Sweeping? && s.collector.Drain?
    requires s.stack == [1] && s.remembered == [] && s.black == {1}
    ensures At(moves', s', bad) && s'.collector.Finished? && s'.black == {1}
    ensures s'.hist.snap == s.hist.snap && s'.hist.roots == s.hist.roots
  {
    hide At;
    var b;
    moves', s', b := Go(moves, s, bad, Collect);
    moves', s', b := Go(moves', s', b, Collect);
    moves', s', b := Go(moves', s', b, Collect);
    moves', s', b := Go(moves', s', b, Collect);
    moves', s', b := Go(moves', s', b, Collect);
    moves', s', b := Go(moves', s', b, Collect);
    moves', s', b := Go(moves', s', b, Collect);
  }

  /** A mutator that is past nothing yet, but gave the barrier a reference another mutator has replaced since:
      it captures that one, and not the one it overwrites. */
  lemma StaleReference() returns (moves: seq<Move>)
    ensures LosesTwo(moves) && Offences(Init(TWO, 2), moves) == [StartMarking([1])]
  {
    hide At;
    Overwriting();
    var s, bad;
    moves, s, bad := CapturesOne();
    moves, s, bad := Go(moves, s, bad, Mutate(0));
    moves, s, bad := Go(moves, s, bad, EndMarking(Sweeping));
    moves := FinishStale(moves, s, bad);
  }

  /** Marking has started, and mutator 0 has recorded 1 and is about to overwrite 2. */
  lemma CapturesOne() returns (moves: seq<Move>, s: State, bad: seq<Move>)
    ensures At(moves, s, bad) && bad == [StartMarking([1])] && s.graph == TWO && s.phase.Marking? && s.hist.active
    ensures s.mutators == [Store(Target(1, 0, 1)), Resting] && s.collector.Waiting? && s.pending == [1]
    ensures s.stack == [] && s.remembered == [1] && s.black == {} && s.hist.snap == TWO && s.hist.roots == {1}
  {
    hide At;
    moves, s, bad := HoldsOne();
    moves, s, bad := Go(moves, s, bad, StartMarking([1]));
    moves, s, bad := Go(moves, s, bad, Mutate(0));
    moves, s, bad := Go(moves, s, bad, Mutate(0));
  }

  /** Mutator 0 has given the barrier reference 1, while the field holds 2 again. */
  lemma HoldsOne() returns (moves: seq<Move>, s: State, bad: seq<Move>)
    ensures At(moves, s, bad) && bad == [] && s.graph == TWO && s.phase.Idle? && !s.hist.active
    ensures s.mutators == [Call(1, Some(Target(1, 0, 1))), Resting]
    ensures s.stack == [] && s.remembered == [] && s.pending == [] && s.black == {}
  {
    hide At;
    Overwriting();
    moves, s, bad := Begin();
    moves, s, bad := Go(moves, s, bad, Write(1, 1, 0, 1));
    moves, s, bad := Go(moves, s, bad, Mutate(1));
    moves, s, bad := Go(moves, s, bad, Mutate(1));
    assert s.graph == ONE;
    moves, s, bad := Go(moves, s, bad, Write(0, 1, 0, 1));
    moves, s, bad := Go(moves, s, bad, Write(1, 1, 0, 2));
    moves, s, bad := Go(moves, s, bad, Mutate(1));
    moves, s, bad := Go(moves, s, bad, Mutate(1));
    assert s.graph == TWO;
  }

  // ---- a capture that comes too late ----

  /** The first cycle is over, and mutator 0 is still about to record reference 2. */
  lemma StillRecording() returns (moves: seq<Move>, s: State)
    ensures Ran(TWO, 1, moves, s) && Obedient(Init(TWO, 1), moves)
    ensures s.collector.Finished? && s.phase.Sweeping? && s.graph == TWO && s.stack == [] && s.remembered == []
    ensures s.mutators == [Record(2, Some(Target(1, 0, 1)))] && s.pending == [] && !s.hist.active
  {
    hide Ran, Legal, Exec, Obedient;
    moves, s := AboutToRecord();
    moves, s := Then(TWO, 1, moves, s, PushRoot);
    moves, s := Then(TWO, 1, moves, s, Spawn);
    moves, s := Then(TWO, 1, moves, s, EndMarking(Sweeping));
    moves, s := Completed(TWO, 1, moves, s);
    RanQueues(TWO, 1, moves, s);
  }

  lemma AboutToRecord() returns (moves: seq<Move>, s: State)
    ensures Ran(TWO, 1, moves, s) && Obedient(Init(TWO, 1), moves)
    ensures s.phase.Marking? && s.hist.active && s.collector.Waiting? && s.graph == TWO && s.pending == [1]
    ensures s.mutators == [Record(2, Some(Target(1, 0, 1)))] && s.hist.late == {}
  {
    hide Ran, Legal, Exec, Obedient;
    moves, s := Beginning(TWO);
    moves, s := Then(TWO, 1, moves, s, StartMarking([1]));
    moves, s := Then(TWO, 1, moves, s, Write(0, 1, 0, 1));
    moves, s := Then(TWO, 1, moves, s, Mutate(0));
  }

  /** A run past the end of marking is completed by its collector. */
  lemma Completed(graph: Edges<Id>, mutators: nat, moves: seq<Move>, s: State) returns (all: seq<Move>, e: State)
    requires Ran(graph, mutators, moves, s) && Obedient(Init(graph, mutators), moves) && Running(s)
    ensures Ran(graph, mutators, all, e) && Obedient(Init(graph, mutators), all) && e.collector.Finished?
    ensures e.graph == s.graph && e.mutators == s.mutators && e.phase == s.phase
    ensures e.hist == s.hist.(active := false)
  {
    all := MarkingCompletes(Init(graph, mutators), moves);
    e := Exec(Init(graph, mutators), all);
    CollectLeaves(Init(graph, mutators), moves, all);
    RunSpawned(graph, mutators, all);
  }

  lemma RanQueues(graph: Edges<Id>, mutators: nat, moves: seq<Move>, s: State)
    requires Ran(graph, mutators, moves, s) && !s.hist.active && s.hist.late == {}
    ensures s.stack == [] && s.remembered == [] && s.pending == []
  {
    RunKeepsQueues(graph, mutators, moves);
    SomeElem(s.stack);
    SomeElem(s.remembered);
  }

  /** The capture has been recorded too late, and the reference overwritten. */
  lemma RecordedLate() returns (moves: seq<Move>, s: State)
    ensures Ran(TWO, 1, moves, s) && Obedient(Init(TWO, 1), moves) && s.phase.Idle? && !s.hist.active
    ensures s.graph == ONE && s.remembered == [2] && s.stack == [] && s.mutators == [Resting] && s.pending == []
  {
    Overwriting();
    hide Legal, Exec, Obedient, Ran;
    moves, s := StillRecording();
    moves, s := Then(TWO, 1, moves, s, Mutate(0));
    moves, s := Then(TWO, 1, moves, s, Mutate(0));
    moves, s := Then(TWO, 1, moves, s, EndSweeping);
  }

  /** The second cycle, whose snapshot has lost the reference to 2, is over. */
  lemma SecondCycle() returns (moves: seq<Move>, s: State)
    ensures Ran(TWO, 1, moves, s) && Obedient(Init(TWO, 1), moves) && s.collector.Finished?
    ensures s.hist.snap == ONE && s.hist.roots == {1} && s.hist.left == {2}
  {
    hide Legal, Exec, Obedient, Ran;
    moves, s := RecordedLate();
    moves, s := Then(TWO, 1, moves, s, StartMarking([1]));
    assert s.hist.left == {2};
    moves, s := Then(TWO, 1, moves, s, PushRoot);
    moves, s := Then(TWO, 1, moves, s, Spawn);
    moves, s := Then(TWO, 1, moves, s, EndMarking(Sweeping));
    moves, s := Completed(TWO, 1, moves, s);
  }

  /** The handshake allows a capture to be recorded after the collector has returned. The next cycle then marks an object
      that was dead when it started, so precision over cycles needs that nothing is left over. */
  lemma LateCaptureIsKept() returns (moves: seq<Move>)
    ensures Legal(Init(TWO, 1), moves) && Obedient(Init(TWO, 1), moves)
    ensures var s := Exec(Init(TWO, 1), moves);
      s.collector.Finished? && 2 in s.black && !Reachable(s.hist.snap, s.hist.roots, 2)
  {
    var s;
    moves, s := SecondCycle();
    hide Legal, Exec, Obedient;
    SnapshotSurvives(TWO, 1, moves);
    RootsReachable(s.hist.snap, s.hist.seeds, 2);
    if Reachable(ONE, {1}, 2) {
      assert Closed(ONE, {1});
      ClosedHoldsReachable(ONE, {1}, {1}, 2);
    }
  }

  // ---- the steps are small ----

  const THREE: Edges<Id> := map[1 := [2, 3], 2 := [], 3 := []]

  /** A mutator can overwrite a field between the collector's reads of two fields of one object, and the collector pushes
      the two references read one at a time. */
  lemma FieldsAreReadOneByOne() returns (moves: seq<Move>, half: State, read: State, pushed: State)
    ensures Ran(THREE, 1, moves, pushed)
    ensures half.collector == ReadFields(1, [2]) && half.graph == THREE && half.black == {1}
    ensures read.collector == PushChildren([2, 1]) && read.graph == map[1 := [2, 1], 2 := [], 3 := []]
    ensures read.remembered == [3] && read.stack == []
    ensures pushed.collector == PushChildren([1]) && pushed.stack == [2]
  {
    moves, half := ReadsHalf();
    moves, read := Interrupts(moves, half);
    hide Ran;
    moves, read := Then(THREE, 1, moves, read, Collect);
    moves, read := Then(THREE, 1, moves, read, Collect);
    moves, pushed := Then(THREE, 1, moves, read, Collect);
  }

  lemma Interrupts(moves: seq<Move>, s: State) returns (longer: seq<Move>, s': State)
    requires Ran(THREE, 1, moves, s) && s.mutators == [Resting] && s.phase.Marking? && s.graph == THREE && s.remembered == []
    ensures Ran(THREE, 1, longer, s') && s'.graph == map[1 := [2, 1], 2 := [], 3 := []] && s'.remembered == [3]
    ensures s'.collector == s.collector && s'.stack == s.stack && s'.black == s.black && s'.hist.active == s.hist.active
  {
    hide Ran;
    assert THREE[1][1 := 1] == [2, 1];
    longer, s' := Then(THREE, 1, moves, s, Write(0, 1, 1, 1));
    longer, s' := Then(THREE, 1, longer, s', Mutate(0));
    longer, s' := Then(THREE, 1, longer, s', Mutate(0));
    longer, s' := Then(THREE, 1, longer, s', Mutate(0));
  }

  /** Marking has started with root 1, and the collector is about to drain for the first time. */
  lemma Spawned(g: Edges<Id>) returns (moves: seq<Move>, s: State)
    ensures Ran(g, 1, moves, s) && s.collector.Drain? && s.graph == g && s.black == {} && s.stack == [1]
    ensures s.phase.Marking? && s.hist.active && s.mutators == [Resting] && s.remembered == [] && s.pending == []
  {
    moves, s := Beginning(g);
    hide Ran;
    moves, s := Then(g, 1, moves, s, StartMarking([1]));
    moves, s := Then(g, 1, moves, s, PushRoot);
    moves, s := Then(g, 1, moves, s, Spawn);
  }

  lemma Beginning(g: Edges<Id>) returns (moves: seq<Move>, s: State)
    ensures Ran(g, 1, moves, s) && Obedient(Init(g, 1), moves) && s == Init(g, 1)
  {
    moves, s := [], Init(g, 1);
  }

  lemma ReadsHalf() returns (moves: seq<Move>, s: State)
    ensures Ran(THREE, 1, moves, s) && s.collector == ReadFields(1, [2]) && s.graph == THREE && s.black == {1}
    ensures s.phase.Marking? && s.hist.active && s.mutators == [Resting] && s.remembered == [] && s.stack == []
  {
    hide Ran;
    moves, s := Spawned(THREE);
    moves, s := Then(THREE, 1, moves, s, Collect);
    moves, s := Then(THREE, 1, moves, s, Collect);
    moves, s := Then(THREE, 1, moves, s, Collect);
  }
}

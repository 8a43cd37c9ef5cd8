/** The collector thread as the loop it is, over the shared objects of the barrier, on a graph that does
    not change. The mutators are a schedule: in each round of the loop they capture some ids before the
    collector drains the remembered set and some after it pops the stack, and at the end of the last round
    of the schedule the phase leaves Marking. SatbMachine covers mutators that write, and finer interleavings. */
module ConcurrentMarker {
  import opened Common
  import opened Graphs
  import opened SatbMachine
  import opened Barrier
  import Marker
  import SatbPrecision

  datatype Round = Round(before: seq<Id>, after: seq<Id>)

  /** All ids captured in a schedule. */
  function Captured(rounds: seq<Round>): set<Id> {
    if rounds == [] then {}
    else Elems(rounds[0].before) + Elems(rounds[0].after) + Captured(rounds[1..])
  }

  /** Everything black or waiting can be reached from `seeds`; the seeds handed over so far are black or waiting,
      and so are the references of black objects. */
  ghost predicate Progress(g: Edges<Id>, seeds: set<Id>, given: set<Id>, black: set<Id>, waiting: set<Id>) {
    && (forall x :: x in black + waiting ==> Reachable(g, seeds, x))
    && given <= black + waiting
    && (forall u, v :: u in black && v in Refs(g, u) ==> v in black || v in waiting)
  }

  lemma ProgressDone(g: Edges<Id>, seeds: set<Id>, black: set<Id>)
    requires Progress(g, seeds, seeds, black, {})
    ensures forall x :: x in black <==> Reachable(g, seeds, x)
  {
    forall x | Reachable(g, seeds, x) ensures x in black { ClosedHoldsReachable(g, black, seeds, x); }
  }

  lemma MoreGiven(g: Edges<Id>, seeds: set<Id>, given: set<Id>, black: set<Id>, waiting: set<Id>, ids: set<Id>)
    requires Progress(g, seeds, given, black, waiting) && ids <= seeds
    ensures Progress(g, seeds, given + ids, black, waiting + ids)
  {
    forall x | x in ids ensures Reachable(g, seeds, x) { RootsReachable(g, seeds, x); }
  }

  /** Dropping a black id from the queues loses nothing. */
  lemma DropBlack(g: Edges<Id>, seeds: set<Id>, given: set<Id>, black: set<Id>, waiting: set<Id>, left: set<Id>)
    requires Progress(g, seeds, given, black, waiting) && left <= waiting <= left + black
    ensures Progress(g, seeds, given, black, left)
  {
  }

  /** Marking `id`, which was waiting, makes its unmarked references wait. */
  lemma Marked(g: Edges<Id>, seeds: set<Id>, given: set<Id>, black: set<Id>, waiting: set<Id>, id: Id, left: set<Id>)
    requires Progress(g, seeds, given, black, waiting) && id in waiting
    requires waiting <= left + {id} && left <= waiting
    ensures Progress(g, seeds, given, black + {id}, left + (Elems(Refs(g, id)) - (black + {id})))
  {
    forall v | v in Refs(g, id) ensures Reachable(g, seeds, v) { StepReachable(g, seeds, id, v); }
  }

  /** A mutator calls the barrier for each of `ids`. */
  method Capture(ids: seq<Id>, phase: AtomicPhase, remembered: RememberedSet)
    requires phase.Valid() && phase.byte == Encode(Marking)
    modifies remembered
    ensures remembered.inner == old(remembered.inner) + ids
  {
    for i := 0 to |ids|
      invariant remembered.inner == old(remembered.inner) + ids[..i]
    {
      AtomicPreWrite(phase, remembered, ids[i]);
      assert ids[..i + 1] == ids[..i] + [ids[i]];
    }
    assert ids[..|ids|] == ids;
  }

  method PushAll(ids: seq<Id>, stack: MarkStack)
    modifies stack
    ensures stack.objects == old(stack.objects) + ids
  {
    for i := 0 to |ids|
      invariant stack.objects == old(stack.objects) + ids[..i]
    {
      stack.Push(ids[i]);
      assert ids[..i + 1] == ids[..i] + [ids[i]];
    }
    assert ids[..|ids|] == ids;
  }

  /** Pushes the references of an object that are not black yet. */
  method PushWhite(children: seq<Id>, black: set<Id>, stack: MarkStack)
    modifies stack
    ensures Elems(stack.objects) == Elems(old(stack.objects)) + (Elems(children) - black)
  {
    for i := 0 to |children|
      invariant Elems(stack.objects) == Elems(old(stack.objects)) + (Elems(children[..i]) - black)
    {
      var child := children[i];
      assert children[..i + 1] == children[..i] + [child];
      ghost var before := stack.objects;
      if child !in black {
        stack.Push(child);
        assert Elems(stack.objects) == Elems(before) + {child};
      }
      assert Elems(children[..i + 1]) == Elems(children[..i]) + {child};
    }
    assert children[..|children|] == children;
  }

  /** Moves the remembered set onto the stack and takes the top. */
  method Fetch(stack: MarkStack, remembered: RememberedSet) returns (next: Option<Id>)
    modifies stack, remembered
    ensures remembered.inner == []
    ensures next.None? <==> old(stack.objects) + old(remembered.inner) == []
    ensures next.None? ==> stack.objects == []
    ensures next.Some? ==> stack.objects + [next.value] == old(stack.objects) + old(remembered.inner)
  {
    var drained := remembered.Drain();
    if drained != [] {
      PushAll(drained, stack);
    }
    next := stack.Pop();
  }

  function Waiting(stack: seq<Id>, remembered: seq<Id>): set<Id> {
    Elems(stack) + Elems(remembered)
  }

  lemma WaitingMore(stack: seq<Id>, remembered: seq<Id>, ids: seq<Id>)
    ensures Waiting(stack, remembered + ids) == Waiting(stack, remembered) + Elems(ids) == Waiting(stack + ids, remembered)
  {
  }

  lemma ProgressStart(g: Edges<Id>, seeds: set<Id>, start: set<Id>)
    requires start <= seeds
    ensures Progress(g, seeds, start, {}, start)
  {
    forall x | x in start ensures Reachable(g, seeds, x) { RootsReachable(g, seeds, x); }
  }

  lemma WaitingIsKnown(g: Edges<Id>, seeds: set<Id>, given: set<Id>, black: set<Id>, waiting: set<Id>, id: Id)
    requires Progress(g, seeds, given, black, waiting) && id in waiting
    ensures id in seeds + AllRefs(g)
  {
    ReachableIsKnown(g, seeds, id);
  }

  /** One round up to the phase check: the mutators capture, the collector drains and pops, the mutators capture. */
  method Turn(round: Round, stack: MarkStack, remembered: RememberedSet, phase: AtomicPhase,
              ghost g: Edges<Id>, ghost seeds: set<Id>, ghost given: set<Id>, ghost black: set<Id>)
    returns (next: Option<Id>)
    requires phase.byte == Encode(Marking)
    requires Progress(g, seeds, given, black, Waiting(stack.objects, remembered.inner))
    requires Elems(round.before) + Elems(round.after) <= seeds
    modifies stack, remembered
    ensures Progress(g, seeds, given + Elems(round.before) + Elems(round.after), black,
                     Waiting(stack.objects, remembered.inner) + Taken(next))
    ensures next.None? ==> stack.objects == []
  {
    hide Progress;
    WaitingMore(stack.objects, remembered.inner, round.before);
    MoreGiven(g, seeds, given, black, Waiting(stack.objects, remembered.inner), Elems(round.before));
    Capture(round.before, phase, remembered);
    FetchWaiting(stack.objects, remembered.inner);
    next := Fetch(stack, remembered);
    ghost var waiting := Waiting(stack.objects, remembered.inner) + Taken(next);
    MoreGiven(g, seeds, given + Elems(round.before), black, waiting, Elems(round.after));
    WaitingMore(stack.objects, remembered.inner, round.after);
    Capture(round.after, phase, remembered);
    assert Waiting(stack.objects, remembered.inner) + Taken(next) == waiting + Elems(round.after);
  }

  function Taken(next: Option<Id>): set<Id> {
    match next
    case None => {}
    case Some(id) => {id}
  }

  lemma FetchWaiting(stack: seq<Id>, remembered: seq<Id>)
    ensures forall s: seq<Id>, next: Option<Id> ::
      (next.None? ==> stack + remembered == [] == s) && (next.Some? ==> s + [next.value] == stack + remembered) ==>
      Waiting(s, []) + Taken(next) == Waiting(stack, remembered)
  {
    forall s: seq<Id>, next: Option<Id> |
      (next.None? ==> stack + remembered == [] == s) && (next.Some? ==> s + [next.value] == stack + remembered)
      ensures Waiting(s, []) + Taken(next) == Waiting(stack, remembered)
    {
      assert Elems(stack + remembered) == Waiting(stack, remembered);
      if next.Some? { assert Elems(s + [next.value]) == Elems(s) + {next.value}; }
    }
  }

  /** Scans an object just taken from the stack, unless it is black. */
  method Visit(g: Edges<Id>, id: Id, black: set<Id>, stack: MarkStack, ghost remembered: seq<Id>,
               ghost seeds: set<Id>, ghost given: set<Id>)
    returns (black': set<Id>, scanned: nat)
    requires Progress(g, seeds, given, black, Waiting(stack.objects, remembered) + {id})
    modifies stack
    ensures Progress(g, seeds, given, black', Waiting(stack.objects, remembered))
    ensures black' == black + {id} && id in seeds + AllRefs(g)
    ensures id in black ==> scanned == 0 && stack.objects == old(stack.objects)
    ensures id !in black ==> scanned == 1
  {
    hide Progress, AllRefs;
    ghost var waiting := Waiting(stack.objects, remembered) + {id};
    WaitingIsKnown(g, seeds, given, black, waiting, id);
    if id in black {
      DropBlack(g, seeds, given, black, waiting, Waiting(stack.objects, remembered));
      assert black + {id} == black;
      return black, 0;
    }
    Marked(g, seeds, given, black, waiting, id, Waiting(stack.objects, remembered));
    black', scanned := black + {id}, 1;
    ghost var left := Waiting(stack.objects, remembered);
    PushWhite(Refs(g, id), black', stack);
    assert Waiting(stack.objects, remembered) == left + (Elems(Refs(g, id)) - black');
  }

  /** What happens up to the match on the popped entry, in round `n` or after the last one. */
  method NextRound(rounds: seq<Round>, n: nat, stack: MarkStack, remembered: RememberedSet, phase: AtomicPhase,
                   ghost g: Edges<Id>, ghost seeds: set<Id>, ghost given: set<Id>, ghost black: set<Id>)
    returns (next: Option<Id>, n': nat, ghost given': set<Id>)
    requires n <= |rounds| && phase.byte == (if n < |rounds| then Encode(Marking) else Encode(Sweeping))
    requires seeds == given + Captured(rounds[n..])
    requires Progress(g, seeds, given, black, Waiting(stack.objects, remembered.inner))
    modifies stack, remembered, phase
    ensures n' <= |rounds| && phase.byte == if n' < |rounds| then Encode(Marking) else Encode(Sweeping)
    ensures seeds == given' + Captured(rounds[n'..])
    ensures Progress(g, seeds, given', black, Waiting(stack.objects, remembered.inner) + Taken(next))
    ensures next.None? ==> stack.objects == []
    ensures n < |rounds| ==> n' == n + 1
    ensures n == |rounds| ==> n' == n && remembered.inner == []
    ensures n == |rounds| && next.Some? ==> |stack.objects| + 1 == |old(stack.objects)| + |old(remembered.inner)|
  {
    hide Progress, Waiting, Captured, Elems;
    n', given' := n, given;
    if n < |rounds| {
      CapturedSplit(rounds, n);
      next := Turn(rounds[n], stack, remembered, phase, g, seeds, given, black);
      given' := given + Elems(rounds[n].before) + Elems(rounds[n].after);
      n' := n + 1;
      if n' == |rounds| {
        phase.Store(Sweeping);
      }
    } else {
      FetchWaiting(stack.objects, remembered.inner);
      next := Fetch(stack, remembered);
    }
  }

  /** The stack was empty: has marking ended, and with nothing left to drain? */
  method LastLook(stack: MarkStack, remembered: RememberedSet, phase: AtomicPhase) returns (done: bool)
    requires phase.Valid() && stack.objects == []
    modifies stack, remembered
    ensures done <==> phase.byte != Encode(Marking) && old(remembered.inner) == []
    ensures Waiting(stack.objects, remembered.inner) == Waiting([], old(remembered.inner))
    ensures done ==> stack.objects == [] && remembered.inner == []
    ensures phase.byte == Encode(Marking) ==> stack.objects == [] && remembered.inner == old(remembered.inner)
  {
    var p := phase.Load();
    if p != Marking {
      var last := remembered.Drain();
      if last == [] && stack.objects == [] {
        return true;
      }
      WaitingMore([], [], last);
      assert [] + last == last;
      PushAll(last, stack);
    }
    return false;
  }

  lemma CapturedSplit(rounds: seq<Round>, n: nat)
    requires n <= |rounds|
    ensures n < |rounds| ==>
      Captured(rounds[n..]) == Elems(rounds[n].before) + Elems(rounds[n].after) + Captured(rounds[n + 1..])
    ensures Captured(rounds[|rounds|..]) == {}
  {
    if n < |rounds| { assert rounds[n..][1..] == rounds[n + 1..]; }
  }

  /** Returns exactly what can be reached from the initial stack, the remembered set and every capture,
      whenever the captures arrive; each object is scanned once. */
  method ConcurrentMark(g: Edges<Id>, stack: MarkStack, remembered: RememberedSet, phase: AtomicPhase, rounds: seq<Round>)
    returns (black: set<Id>, scans: nat)
    requires phase.byte == Encode(Marking) && rounds != []
    modifies stack, remembered, phase
    ensures forall x :: x in black <==>
      Reachable(g, Waiting(old(stack.objects), old(remembered.inner)) + Captured(rounds), x)
    ensures scans == |black|
    ensures stack.objects == [] && remembered.inner == [] && phase.byte == Encode(Sweeping)
  {
    hide Progress, Reachable, AllRefs, Captured, Waiting, Elems;
    ghost var given := Waiting(stack.objects, remembered.inner);
    ghost var seeds := given + Captured(rounds);
    ghost var universe := seeds + AllRefs(g);
    ProgressStart(g, seeds, given);
    assert rounds[0..] == rounds;
    black, scans := {}, 0;
    var n: nat := 0;
    while true
      invariant n <= |rounds| && (phase.byte == if n < |rounds| then Encode(Marking) else Encode(Sweeping))
      invariant seeds == given + Captured(rounds[n..])
      invariant Progress(g, seeds, given, black, Waiting(stack.objects, remembered.inner))
      invariant scans == |black| && black <= universe
      decreases |rounds| - n, |universe - black|, 2 * |remembered.inner| + |stack.objects|
    {
      ghost var before := black;
      var next: Option<Id>;
      next, n, given := NextRound(rounds, n, stack, remembered, phase, g, seeds, given, black);
      match next {
        case Some(id) =>
          var scanned;
          black, scanned := Visit(g, id, black, stack, remembered.inner, seeds, given);
          scans := scans + scanned;
          UnseenShrinks(universe, before, black);
        case None =>
          Nothing();
          var done := LastLook(stack, remembered, phase);
          if done {
            NothingWaits();
            CapturedSplit(rounds, n);
            assert given == seeds;
            ProgressDone(g, seeds, black);
            return;
          }
      }
    }
  }

  lemma Nothing()
    ensures forall w: set<Id> :: w + Taken(None) == w
  {
  }

  lemma NothingWaits()
    ensures Waiting([], []) == {}
  {
  }

  /** The two markers agree: in every interleaving of the collector and the orchestrator, what the concurrent marker
      returns is what the stop-the-world marker colors Black. */
  method MarkersAgreeAlways(g: Edges<Id>, roots: seq<Id>, allIds: seq<Id>, ghost mutators: nat, ghost moves: seq<Move>)
    returns (color: map<Id, Marker.Color>)
    requires Legal(Init(g, mutators), moves) && SatbPrecision.Quiet(moves)
    requires var s := Exec(Init(g, mutators), moves); s.collector.Finished? && s.hist.roots == Elems(roots)
    ensures forall x :: x in Exec(Init(g, mutators), moves).black <==> x in color && color[x] == Marker.Black
  {
    hide Reachable, Legal, Exec;
    SatbPrecision.QuietIsExact(g, mutators, moves);
    color := Marker.Mark(g, roots, allIds);
  }

  /** So do the two programs: with the roots on the stack and no captures, the loop returns that set too. */
  method MarkersAgree(g: Edges<Id>, roots: seq<Id>, allIds: seq<Id>) returns (black: set<Id>, color: map<Id, Marker.Color>)
    ensures forall x :: x in black <==> x in color && color[x] == Marker.Black
  {
    hide Reachable;
    var stack := new MarkStack();
    var remembered := new RememberedSet();
    var phase := new AtomicPhase();
    phase.Store(Marking);
    PushAll(roots, stack);
    assert Waiting([] + roots, []) + Captured([Round([], [])]) == Elems(roots);
    var scans;
    black, scans := ConcurrentMark(g, stack, remembered, phase, [Round([], [])]);
    color := Marker.Mark(g, roots, allIds);
  }
}

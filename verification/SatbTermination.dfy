/** The collector returns: once the phase has left Marking and nobody hands over anything more, finitely
    many of its own steps lead to the end of its loop, on every finite graph. */
module SatbTermination {
  import opened Graphs
  import opened SatbMachine
  import opened SatbSafety
  import opened SatbPrecision

  /** Every id the collector can still come across. */
  function Universe(s: State): set<Id> {
    Noted(s) + AllRefs(s.graph)
  }

  /** Ids not marked yet: the first component of the measure. */
  function White(s: State): set<Id> {
    Universe(s) - s.black
  }

  /** The second component: a scan in progress comes before the queues. */
  function Stage(c: Collector): nat {
    match c
    case ReadFields(_, _) => 2
    case PushChildren(_) => 1
    case _ => 0
  }

  /** The third component: work left in the scan, or else in the queues, which an entry passes from the
      remembered set through the collector's hands to the stack. */
  function Work(s: State): nat {
    match s.collector
    case ReadFields(id, read) => if |read| < |Refs(s.graph, id)| then |Refs(s.graph, id)| - |read| else 0
    case PushChildren(todo) => |todo|
    case _ => 8 * (3 * |s.remembered| + 2 * Carried(s.collector) + |s.stack|) + Rank(s)
  }

  function Carried(c: Collector): nat {
    match c
    case PushDrained(ids) => |ids|
    case PushFinal(ids) => |ids|
    case _ => 0
  }

  function Rank(s: State): nat {
    var again := if s.stack == [] then 0 else 8;   // the last look at the stack will send the loop round again
    match s.collector
    case PushFinal(_) => 7
    case Drain => 6
    case PushDrained(_) => 5
    case Pop => 4
    case CheckPhase => 3 + again
    case FinalDrain => 2 + again
    case CheckStack => 1 + again
    case _ => 0
  }

  predicate Running(s: State) {
    Enabled(s, Collect) && !s.phase.Marking?
  }

  ghost predicate Less(s': State, s: State) {
    || |White(s')| < |White(s)|
    || (|White(s')| == |White(s)| && Stage(s'.collector) < Stage(s.collector))
    || (|White(s')| == |White(s)| && Stage(s'.collector) == Stage(s.collector) && Work(s') < Work(s))
  }

  /** No step makes more ids white. */
  lemma WhiteShrinks(s: State)
    requires Enabled(s, Collect)
    ensures White(DoCollect(s)) <= White(s)
  {
    CollectNotes(s);
    forall x | x in NewlyRead(s) ensures x in AllRefs(s.graph) {
      RefIsRef(s.graph, s.collector.id, x);
    }
    assert s.black <= DoCollect(s).black;
  }

  /** Taking an unmarked id off the stack marks it. */
  lemma PopMarks(s: State)
    requires Enabled(s, Collect) && s.collector.Pop? && s.stack != [] && s.stack[|s.stack| - 1] !in s.black
    ensures White(DoCollect(s)) != White(s)
  {
    var id := s.stack[|s.stack| - 1];
    assert id in Elems(s.stack);
    assert id in White(s) && id !in White(DoPop(s));
  }

  /** Otherwise the stage goes down, or the work does. */
  lemma WorkShrinks(s: State)
    requires Running(s)
    requires !(s.collector.Pop? && s.stack != [] && s.stack[|s.stack| - 1] !in s.black)
    ensures var s' := DoCollect(s);
      || Stage(s'.collector) < Stage(s.collector)
      || (Stage(s'.collector) == Stage(s.collector) && Work(s') < Work(s))
  {
  }

  lemma EachStepShrinks(s: State)
    requires Running(s)
    ensures Less(DoCollect(s), s)
  {
    hide DoCollect, White, Work, Stage;
    WhiteShrinks(s);
    SubsetSize(White(DoCollect(s)), White(s));
    if s.collector.Pop? && s.stack != [] && s.stack[|s.stack| - 1] !in s.black { PopMarks(s); }
    else { WorkShrinks(s); }
  }

  lemma KeepsRunning(s: State)
    requires Running(s)
    ensures var s' := DoCollect(s); s'.collector.Finished? || Running(s')
  {
  }

  lemma OneMore(s: State, moves: seq<Move>)
    requires Legal(s, moves) && Running(Exec(s, moves))
    ensures Legal(s, moves + [Collect]) && Exec(s, moves + [Collect]) == DoCollect(Exec(s, moves))
    ensures Obedient(s, moves) ==> Obedient(s, moves + [Collect])
  {
    assert (moves + [Collect])[..|moves|] == moves;
  }

  /** Any run that has reached the end of marking can be completed by steps of the collector alone, which ask
      nothing of the mutators. */
  lemma {:induction false} MarkingCompletes(s: State, moves: seq<Move>) returns (all: seq<Move>)
    requires Legal(s, moves) && Running(Exec(s, moves))
    ensures Legal(s, all) && moves <= all && Exec(s, all).collector.Finished?
    ensures forall k :: |moves| <= k < |all| ==> all[k].Collect?
    ensures Obedient(s, moves) ==> Obedient(s, all)
    decreases |White(Exec(s, moves))|, Stage(Exec(s, moves).collector), Work(Exec(s, moves))
  {
    hide DoCollect, White, Stage, Work, Legal, Exec, Obedient;
    var now, longer := Exec(s, moves), moves + [Collect];
    OneMore(s, moves);
    KeepsRunning(now);
    if DoCollect(now).collector.Finished? {
      all := longer;
    } else {
      EachStepShrinks(now);
      all := MarkingCompletes(s, longer);
    }
  }
}

/** The shared objects of the barrier, each behind its own lock or atomic: mark stack, remembered set,
    phase, and the two write barriers. */
module Barrier {
  import opened Common
  import opened SatbMachine

  class MarkStack {
    var objects: seq<Id>

    constructor ()
      ensures objects == []
    {
      objects := [];
    }

    method Push(id: Id)
      modifies this
      ensures objects == old(objects) + [id]
    {
      objects := objects + [id];
    }

    method Pop() returns (id: Option<Id>)
      modifies this
      ensures id.None? <==> old(objects) == []
      ensures old(objects) == objects + (if id.None? then [] else [id.value])
    {
      if objects == [] {
        return None;
      }
      id := Some(objects[|objects| - 1]);
      objects := objects[..|objects| - 1];
    }
  }

  class RememberedSet {
    var inner: seq<Id>

    constructor ()
      ensures inner == []
    {
      inner := [];
    }

    method Record(id: Id)
      modifies this
      ensures inner == old(inner) + [id]
    {
      inner := inner + [id];
    }

    /** Empties the queue and returns its contents in order. */
    method Drain() returns (ids: seq<Id>)
      modifies this
      ensures ids == old(inner) && inner == []
    {
      ids := inner;
      inner := [];
    }
  }

  /** The phase byte. */
  function Encode(p: Phase): int {
    match p
    case Idle => 0
    case Marking => 1
    case Sweeping => 2
  }

  class AtomicPhase {
    var byte: int

    ghost predicate Valid()
      reads this
    {
      exists p :: byte == Encode(p)
    }

    constructor ()
      ensures byte == Encode(Idle)
    {
      byte := 0;
    }

    /** Loading gives back what was stored. */
    method Load() returns (p: Phase)
      requires Valid()
      ensures byte == Encode(p) && forall q :: byte == Encode(q) ==> q == p
    {
      p := if byte == 0 then Idle else if byte == 1 then Marking else Sweeping;
    }

    method Store(p: Phase)
      modifies this
      ensures byte == Encode(p)
    {
      byte := Encode(p);
    }

    /** Succeeds exactly from phase `from`; a refused transition changes nothing. */
    method Transition(from: Phase, to: Phase) returns (done: bool)
      modifies this
      ensures done <==> old(byte) == Encode(from)
      ensures byte == if done then Encode(to) else old(byte)
    {
      done := byte == Encode(from);
      if done {
        byte := Encode(to);
      }
    }
  }

  /** The barrier of a single-threaded mutator: captures onto the mark stack, and only during marking. */
  method PreWrite(phase: Phase, stack: MarkStack, overwritten: Id)
    modifies stack
    ensures stack.objects == old(stack.objects) + (if phase.Marking? then [overwritten] else [])
  {
    if phase == Marking {
      stack.Push(overwritten);
    }
  }

  /** The barrier of a concurrent mutator: captures into the remembered set. */
  method AtomicPreWrite(phase: AtomicPhase, remembered: RememberedSet, overwritten: Id)
    requires phase.Valid()
    modifies remembered
    ensures remembered.inner == old(remembered.inner) + (if phase.byte == Encode(Marking) then [overwritten] else [])
  {
    var p := phase.Load();
    if p == Marking {
      remembered.Record(overwritten);
    }
  }
}

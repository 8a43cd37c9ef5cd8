/** The hazard registry as an object: a fixed array of slots, searched and scanned by loops. */
module HazardRegistry {
  import opened Common
  import opened HazardStack

  /** The pointers a scan of the slots from `from` on returns when nothing moves meanwhile. */
  function Published(slots: seq<Slot>, from: nat): seq<Ptr>
    requires from <= |slots|
    decreases |slots| - from
  {
    if from == |slots| then []
    else if slots[from].inUse && slots[from].ptr != NULL then [slots[from].ptr] + Published(slots, from + 1)
    else Published(slots, from + 1)
  }

  /** A pointer is returned by the scan exactly when a slot in use publishes it. */
  lemma {:induction false} PublishedMembers(slots: seq<Slot>, from: nat, p: Ptr)
    requires from <= |slots| && p != NULL
    ensures p in Published(slots, from) <==> exists i :: from <= i < |slots| && slots[i].inUse && slots[i].ptr == p
    decreases |slots| - from
  {
    if from < |slots| {
      PublishedMembers(slots, from + 1, p);
      var here := slots[from].inUse && slots[from].ptr == p;
      assert p in Published(slots, from) <==> here || p in Published(slots, from + 1);
      if i :| from <= i < |slots| && slots[i].inUse && slots[i].ptr == p {
        assert i == from || from + 1 <= i;
      }
    }
  }

  class Registry {
    const inUse: array<bool>
    const ptr: array<Ptr>

    ghost predicate Valid() {
      inUse.Length == MAX_HAZARDS && ptr.Length == MAX_HAZARDS
    }

    ghost function View(): (slots: seq<Slot>)
      requires Valid()
      reads inUse, ptr
      ensures |slots| == MAX_HAZARDS
    {
      seq(MAX_HAZARDS, i requires 0 <= i < MAX_HAZARDS && Valid() reads inUse, ptr => Slot(inUse[i], ptr[i]))
    }

    constructor ()
      ensures Valid() && fresh(inUse) && fresh(ptr)
      ensures View() == seq(MAX_HAZARDS, _ => Slot(false, NULL))
    {
      inUse := new bool[MAX_HAZARDS](_ => false);
      ptr := new Ptr[MAX_HAZARDS](_ => NULL);
    }

    /** A registry in a given state. */
    constructor Holding(slots: seq<Slot>)
      requires |slots| == MAX_HAZARDS
      ensures Valid() && fresh(inUse) && fresh(ptr)
      ensures View() == slots
    {
      inUse := new bool[MAX_HAZARDS](i requires 0 <= i < |slots| => slots[i].inUse);
      ptr := new Ptr[MAX_HAZARDS](i requires 0 <= i < |slots| => slots[i].ptr);
    }

    /** Takes the first free slot; None exactly when every slot is in use. */
    method Acquire() returns (slot: Option<nat>)
      requires Valid()
      modifies inUse
      ensures slot.None? <==> forall i :: 0 <= i < MAX_HAZARDS ==> old(View())[i].inUse
      ensures slot.None? ==> View() == old(View())
      ensures slot.Some? ==>
        var i := slot.value;
        && i < MAX_HAZARDS && !old(View())[i].inUse
        && (forall k :: 0 <= k < i ==> old(View())[k].inUse)
        && View() == old(View())[i := old(View())[i].(inUse := true)]
    {
      for idx := 0 to MAX_HAZARDS
        invariant View() == old(View())
        invariant forall k :: 0 <= k < idx ==> old(View())[k].inUse
      {
        assert inUse[idx] == View()[idx].inUse;
        if !inUse[idx] {
          inUse[idx] := true;
          return Some(idx);
        }
      }
      return None;
    }

    /** Publishes `p` in slot `i`. Clearing a slot publishes NULL. */
    method Protect(i: nat, p: Ptr)
      requires Valid() && i < MAX_HAZARDS
      modifies ptr
      ensures View() == old(View())[i := old(View())[i].(ptr := p)]
    {
      ptr[i] := p;
    }

    method Clear(i: nat)
      requires Valid() && i < MAX_HAZARDS
      modifies ptr
      ensures View() == old(View())[i := old(View())[i].(ptr := NULL)]
    {
      ptr[i] := NULL;
    }

    /** Dropping the guard of slot `i`. */
    method Release(i: nat)
      requires Valid() && i < MAX_HAZARDS
      modifies inUse, ptr
      ensures View() == old(View())[i := Slot(false, NULL)]
    {
      Clear(i);
      ghost var cleared := View();
      inUse[i] := false;
      assert View() == cleared[i := cleared[i].(inUse := false)];
    }

    method IsHazarded(p: Ptr) returns (found: bool)
      requires Valid()
      ensures found <==> exists i :: 0 <= i < MAX_HAZARDS && View()[i].inUse && View()[i].ptr == p
    {
      for i := 0 to MAX_HAZARDS
        invariant forall k :: 0 <= k < i ==> !(View()[k].inUse && View()[k].ptr == p)
      {
        if inUse[i] && ptr[i] == p {
          assert View()[i].inUse && View()[i].ptr == p;
          return true;
        }
      }
      return false;
    }

    method Snapshot() returns (hazards: seq<Ptr>)
      requires Valid()
      ensures hazards == Published(View(), 0)
    {
      hazards := [];
      for i := 0 to MAX_HAZARDS
        invariant Published(View(), 0) == hazards + Published(View(), i)
      {
        assert View()[i] == Slot(inUse[i], ptr[i]);
        if inUse[i] {
          var p := ptr[i];
          if p != NULL {
            hazards := hazards + [p];
          }
        }
      }
    }

    /** The two ways to ask whether a pointer may be freed give the same answer. */
    lemma QueriesAgree(p: Ptr)
      requires Valid() && p != NULL
      ensures p in Published(View(), 0) <==> exists i :: 0 <= i < MAX_HAZARDS && View()[i].inUse && View()[i].ptr == p
    {
      PublishedMembers(View(), 0, p);
    }
  }
}

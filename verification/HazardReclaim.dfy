/** The retired list stays short: a scan keeps at most one entry per hazard slot. */
module HazardReclaim {
  import opened Common
  import opened HazardStack
  import opened HazardInvariant

  /** What the thread inside the critical section knows about the length of the retired list: a scan finds at most one
      pointer per slot, none of them null. */
  ghost predicate Bounded(s: State, pc: Pc) {
    match pc
    case RetirePush(_, _) => |s.retired| <= MAX_HAZARDS
    case ScanUse(j, found, _) => |found| <= j && NULL !in found && |s.retired| <= MAX_HAZARDS + 1
    case ScanPtr(j, found, _) => |found| <= j && NULL !in found && |s.retired| <= MAX_HAZARDS + 1
    case Sift(k, found, _) =>
      && |found| <= MAX_HAZARDS && NULL !in found && |s.retired| <= MAX_HAZARDS + 1
      && k <= |s.retired| && forall m :: 0 <= m < k ==> s.retired[m] in found
    case Unlock(_) => |s.retired| <= MAX_HAZARDS
    case _ => true
  }

  ghost predicate GarbageInv(s: State) {
    && (s.mutex.None? ==> |s.retired| <= MAX_HAZARDS)
    && (forall t {:trigger s.pcs[t]} :: 0 <= t < |s.pcs| ==> Bounded(s, s.pcs[t]))
  }

  /** Pigeonhole: a list without duplicates whose entries all occur in `pool` is no longer than it. */
  lemma {:induction false} Pigeonhole(xs: seq<Ptr>, pool: seq<Ptr>)
    requires NoDups(xs)
    requires forall k :: 0 <= k < |xs| ==> xs[k] in pool
    ensures |xs| <= |pool|
  {
    if xs != [] {
      var n := |xs| - 1;
      var j :| 0 <= j < |pool| && pool[j] == xs[n];
      var rest := Without(pool, j);
      forall k | 0 <= k < n ensures xs[..n][k] in rest {
        var i :| 0 <= i < |pool| && pool[i] == xs[k];
        assert rest[if i < j then i else i - 1] == xs[k];
      }
      Pigeonhole(xs[..n], rest);
    }
  }

  /** Outside its critical section a thread leaves the list and its knowledge alone. */
  lemma OutsideKeepsBound(s: State, t: Tid, m: Move)
    requires Inv(s) && GarbageInv(s) && Enabled(s, t, m) && !InCritical(s.pcs[t])
    ensures GarbageInv(Step(s, t, m))
  {
    hide Inv, Step, WonByOthers;
    OnlyOneMoves(s, t, m);
    OutsideKeepsRetired(s, t, m);
    OutsideEnters(s, t, m);
  }

  /** It does not touch the retired list, nor give up its mutex. */
  lemma OutsideKeepsRetired(s: State, t: Tid, m: Move)
    requires Enabled(s, t, m) && !InCritical(s.pcs[t])
    ensures Step(s, t, m).retired == s.retired
    ensures Step(s, t, m).mutex.None? ==> s.mutex.None?
  {
    hide WonByOthers, ValueAt, StampAt;
  }

  /** It enters only while the mutex is free, with the list as short as it then is. */
  lemma OutsideEnters(s: State, t: Tid, m: Move)
    requires GarbageInv(s) && Enabled(s, t, m) && !InCritical(s.pcs[t])
    ensures Bounded(Step(s, t, m), Step(s, t, m).pcs[t])
  {
    hide WonByOthers, ValueAt, StampAt;
  }

  lemma RetirePushBound(s: State, t: Tid)
    requires Inv(s) && GarbageInv(s) && Enabled(s, t, Go) && s.pcs[t].RetirePush?
    ensures GarbageInv(DoRetirePush(s, t))
  {
    hide Shape, Ownership, Links, Protected, SlotsExclusive;
    OnlyOneInside(s, t);
  }

  lemma OnlyOneInside(s: State, t: Tid)
    requires AllKnow(s) && t < |s.pcs| && InCritical(s.pcs[t])
    ensures s.mutex == Some(t)
    ensures forall u {:trigger s.pcs[u]} :: 0 <= u < |s.pcs| && u != t ==> !InCritical(s.pcs[u])
  {
    assert Knows(s, t);
    forall u | 0 <= u < |s.pcs| && u != t ensures !InCritical(s.pcs[u]) { assert Knows(s, u); }
  }

  lemma ScanBound(s: State, t: Tid)
    requires Inv(s) && GarbageInv(s) && Enabled(s, t, Go) && (s.pcs[t].ScanUse? || s.pcs[t].ScanPtr? || s.pcs[t].Unlock?)
    ensures GarbageInv(Step(s, t, Go))
  {
    hide Shape, Ownership, Links, Protected, SlotsExclusive, WonByOthers;
    OnlyOneInside(s, t);
  }

  lemma SiftBound(s: State, t: Tid)
    requires Inv(s) && GarbageInv(s) && Enabled(s, t, Go) && s.pcs[t].Sift?
    ensures GarbageInv(DoSift(s, t))
    ensures DoSift(s, t).pcs[t].Unlock? ==> |DoSift(s, t).retired| <= |s.pcs[t].found| <= MAX_HAZARDS
  {
    hide Shape, Links, Protected, SlotsExclusive;
    OnlyOneInside(s, t);
    if s.pcs[t].at == |s.retired| { Pigeonhole(s.retired, s.pcs[t].found); }
  }

  lemma StepKeepsBound(s: State, t: Tid, m: Move)
    requires Inv(s) && GarbageInv(s) && Enabled(s, t, m)
    ensures GarbageInv(Step(s, t, m))
  {
    hide Inv, GarbageInv;
    if !m.Go? || !InCritical(s.pcs[t]) {
      assert !m.Go? ==> s.pcs[t].Idle?;
      OutsideKeepsBound(s, t, m);
    }
    else if s.pcs[t].RetirePush? { RetirePushBound(s, t); }
    else if s.pcs[t].Sift? { SiftBound(s, t); }
    else { ScanBound(s, t); }
  }

  /** Bounded garbage: whenever no thread holds the retired list it has at most 64 entries, whatever the
      number of threads and of nodes popped so far; and it never has more than 65. */
  lemma {:induction false} RunBoundsGarbage(threads: nat, turns: seq<Turn>)
    requires Legal(Init(threads), turns)
    ensures var s := Exec(Init(threads), turns);
      && Inv(s) && GarbageInv(s)
      && (s.mutex.None? ==> |s.retired| <= 64)
      && |s.retired| <= 65
  {
    hide *;
    assert Inv(Exec(Init(threads), turns)) by { InitInv(threads); RunKeeps(Init(threads), turns); }
    assert GarbageInv(Exec(Init(threads), turns)) by { RunKeepsGarbage(threads, turns); }
    WithinBound(Exec(Init(threads), turns));
  }

  lemma {:induction false} RunKeepsGarbage(threads: nat, turns: seq<Turn>)
    requires Legal(Init(threads), turns)
    ensures GarbageInv(Exec(Init(threads), turns))
  {
    if turns != [] {
      var n := |turns| - 1;
      RunKeepsGarbage(threads, turns[..n]);
      InitInv(threads);
      RunKeeps(Init(threads), turns[..n]);
      StepKeepsBound(Exec(Init(threads), turns[..n]), turns[n].t, turns[n].m);
    }
  }

  lemma WithinBound(s: State)
    requires Inv(s) && GarbageInv(s)
    ensures (s.mutex.None? ==> |s.retired| <= 64) && |s.retired| <= 65
  {
    if s.mutex.Some? { assert Bounded(s, s.pcs[s.mutex.value]); }
  }

  // ---- when reclamation happens ----

  /** A retirement that leaves fewer than 64 entries scans nothing; one that reaches 64 does. Neither frees anything. */
  lemma RetireReclaimsAt64(s: State, t: Tid)
    requires Enabled(s, t, Go) && s.pcs[t].RetirePush?
    ensures var s' := Step(s, t, Go); var v := s.pcs[t].value;
      && s'.retired == s.retired + [s.pcs[t].top] && s'.mem == s.mem
      && s'.pcs[t] == if |s'.retired| < 64 then Unlock(Some(v)) else ScanUse(0, [], Some(v))
  {
  }

  /** Nobody is reclaiming or about to. */
  ghost predicate Dormant(pcs: seq<Pc>) {
    forall t {:trigger pcs[t]} :: 0 <= t < |pcs| ==> !Reclaiming(pcs[t])
  }

  predicate Reclaiming(pc: Pc) {
    pc.ForceLock? || pc.ScanUse? || pc.ScanPtr? || pc.Sift?
  }

  /** The number of nodes retired in a run. */
  function Retirements(s: State, turns: seq<Turn>): nat
    requires Legal(s, turns)
  {
    if turns == [] then 0
    else
      var n := |turns| - 1;
      Retirements(s, turns[..n]) + (if Retires(Exec(s, turns[..n]), turns[n].t, turns[n].m) then 1 else 0)
  }

  predicate Retires(s: State, t: Tid, m: Move) {
    t < |s.pcs| && m.Go? && s.pcs[t].RetirePush?
  }

  predicate NoForce(turns: seq<Turn>) {
    forall k :: 0 <= k < |turns| ==> !turns[k].m.StartReclaim?
  }

  lemma PushPopRetains(s: State, t: Tid)
    requires Enabled(s, t, Go) && IsPushOrPop(s.pcs[t])
    ensures var s' := Step(s, t, Go);
      s'.retired == s.retired && s'.hist.freed == s.hist.freed && !Reclaiming(s'.pcs[t])
  {
    hide WonByOthers, ValueAt, StampAt;
  }

  lemma RestRetains(s: State, t: Tid)
    requires Enabled(s, t, Go) && !IsPushOrPop(s.pcs[t]) && !Reclaiming(s.pcs[t])
    ensures var s' := Step(s, t, Go);
      && s'.hist.freed == s.hist.freed && |s'.retired| == |s.retired| + (if s.pcs[t].RetirePush? then 1 else 0)
      && (Reclaiming(s'.pcs[t]) ==> |s'.retired| >= 64)
  {
  }

  lemma StepRetains(s: State, t: Tid, m: Move)
    requires Dormant(s.pcs) && Enabled(s, t, m) && !m.StartReclaim?
    ensures var s' := Step(s, t, m);
      && s'.hist.freed == s.hist.freed && |s'.retired| == |s.retired| + (if Retires(s, t, m) then 1 else 0)
      && (|s'.retired| < 64 ==> Dormant(s'.pcs))
  {
    OnlyOneMoves(s, t, m);
    if m.Go? {
      if IsPushOrPop(s.pcs[t]) { PushPopRetains(s, t); } else { RestRetains(s, t); }
      hide Step;
    }
  }

  /** Without `force_reclaim` no node is freed, and nobody looks at the hazard slots, before 64 have been retired. */
  lemma {:induction false} NothingFreedBefore64(threads: nat, turns: seq<Turn>)
    requires Legal(Init(threads), turns) && NoForce(turns) && Retirements(Init(threads), turns) < 64
    ensures var s := Exec(Init(threads), turns);
      && s.hist.freed == multiset{} && |s.retired| == Retirements(Init(threads), turns) && Dormant(s.pcs)
  {
    hide Step, Enabled;
    if turns != [] {
      var n := |turns| - 1;
      NothingFreedBefore64(threads, turns[..n]);
      StepRetains(Exec(Init(threads), turns[..n]), turns[n].t, turns[n].m);
    }
  }
}

/** Acquiring a hazard slot cannot fail while at most 64 threads are between asking for a slot
    and releasing it, although the search for a free slot is not atomic. */
module HazardSlots {
  import opened Common
  import opened HazardStack
  import opened HazardInvariant
  import HazardLinear

  /** The slot a participant holds, or the one it is about to try. */
  function Rank(pc: Pc): Option<nat> {
    match pc
    case Acquire(j) => Some(j)
    case _ => Held(pc)
  }

  predicate From(pcs: seq<Pc>, t: nat, j: nat) {
    t < |pcs| && Rank(pcs[t]).Some? && Rank(pcs[t]).value >= j
  }

  /** The participants at slot `j` or beyond. AtLeast(pcs, 0) is every participant. */
  function AtLeast(pcs: seq<Pc>, j: nat): set<nat> {
    set t | 0 <= t < |pcs| && From(pcs, t, j)
  }

  ghost predicate SlotHeld(pcs: seq<Pc>, i: nat) {
    exists t :: 0 <= t < |pcs| && Held(pcs[t]) == Some(i)
  }

  /** A slot in use has a holder. */
  ghost predicate UseIsHeld(s: State) {
    forall i :: 0 <= i < |s.slots| && s.slots[i].inUse ==> SlotHeld(s.pcs, i)
  }

  /** At most k - j participants hold or try slots from `j` on, and nobody has failed to get one. */
  ghost predicate Crowd(pcs: seq<Pc>, k: nat) {
    && (forall j: nat :: j <= k ==> |AtLeast(pcs, j)| + j <= k)
    && (forall t {:trigger pcs[t]} :: 0 <= t < |pcs| ==> !pcs[t].Panicked?)
  }

  lemma SmallerCrowd(pcs: seq<Pc>, pcs': seq<Pc>, j: nat)
    requires AtLeast(pcs', j) <= AtLeast(pcs, j)
    ensures |AtLeast(pcs', j)| <= |AtLeast(pcs, j)|
  {
    Subset(AtLeast(pcs', j), AtLeast(pcs, j));
  }

  lemma {:induction false} Subset(a: set<nat>, b: set<nat>)
    requires a <= b
    ensures |a| <= |b|
  {
    assert b == a + (b - a);
  }

  /** A step that does not move its thread to a later slot. */
  lemma NoFurther(pcs: seq<Pc>, t: nat, pc: Pc, k: nat)
    requires Crowd(pcs, k) && t < |pcs| && !pc.Panicked?
    requires Rank(pc).Some? ==> Rank(pcs[t]).Some? && Rank(pc).value <= Rank(pcs[t]).value
    ensures Crowd(pcs[t := pc], k)
  {
    var pcs' := pcs[t := pc];
    forall j: nat | j <= k ensures |AtLeast(pcs', j)| + j <= k {
      forall u | u in AtLeast(pcs', j) ensures u in AtLeast(pcs, j) { assert From(pcs', u, j); assert From(pcs, u, j); }
      SmallerCrowd(pcs, pcs', j);
    }
  }

  /** A new participant starts at slot 0, where only the total counts. */
  lemma Joins(pcs: seq<Pc>, t: nat, k: nat)
    requires Crowd(pcs, k) && t < |pcs| && Rank(pcs[t]).None?
    requires |AtLeast(pcs[t := Acquire(0)], 0)| <= k
    ensures Crowd(pcs[t := Acquire(0)], k)
  {
    var pcs' := pcs[t := Acquire(0)];
    forall j: nat | 0 < j <= k ensures |AtLeast(pcs', j)| + j <= k {
      forall u | u in AtLeast(pcs', j) ensures u in AtLeast(pcs, j) { assert From(pcs', u, j); assert From(pcs, u, j); }
      SmallerCrowd(pcs, pcs', j);
    }
  }

  /** A failed attempt at slot `j` moves the searcher to j + 1. The holder of `j` stays behind,
      so there is one participant fewer from j + 1 on than there was from `j` on. */
  lemma MovesOn(pcs: seq<Pc>, t: nat, j: nat, k: nat, holder: nat)
    requires Crowd(pcs, k) && t < |pcs| && pcs[t] == Acquire(j)
    requires holder < |pcs| && Held(pcs[holder]) == Some(j)
    ensures j + 1 < k
    ensures Crowd(pcs[t := Acquire(j + 1)], k)
  {
    var pcs' := pcs[t := Acquire(j + 1)];
    assert Rank(pcs[t]) == Some(j) && Rank(pcs[holder]) == Some(j) && holder != t;
    SearcherWithin(pcs, t, j, k);
    var here := AtLeast(pcs, j);
    assert From(pcs, t, j) && From(pcs, holder, j);
    assert {t, holder} <= here;
    Subset({t, holder}, here);
    forall i: nat | i <= k ensures |AtLeast(pcs', i)| + i <= k {
      if i <= j {
        forall u | u in AtLeast(pcs', i) ensures u in AtLeast(pcs, i) { assert From(pcs', u, i); assert From(pcs, u, i); }
        SmallerCrowd(pcs, pcs', i);
      } else if i == j + 1 {
        forall u | u in AtLeast(pcs', i) ensures u in here - {holder} { assert From(pcs', u, i); assert From(pcs, u, j); }
        Subset(AtLeast(pcs', i), here - {holder});
      } else {
        forall u | u in AtLeast(pcs', i) ensures u in AtLeast(pcs, i) { assert From(pcs', u, i); assert From(pcs, u, i); }
        SmallerCrowd(pcs, pcs', i);
      }
    }
  }

  /** Every participant is at a slot below `k`. */
  lemma SearcherWithin(pcs: seq<Pc>, t: nat, j: nat, k: nat)
    requires Crowd(pcs, k) && t < |pcs| && Rank(pcs[t]) == Some(j)
    ensures j < k
  {
    var m := if j < k then j else k;
    assert From(pcs, t, m);
    assert {t} <= AtLeast(pcs, m);
    Subset({t}, AtLeast(pcs, m));
  }

  // ---- steps ----

  lemma {:induction false} UseHeldKept(s: State, s': State, t: nat)
    requires UseIsHeld(s) && t < |s.pcs| && |s'.pcs| == |s.pcs| && s'.pcs == s.pcs[t := s'.pcs[t]]
    requires Held(s'.pcs[t]) == Held(s.pcs[t]) && |s'.slots| == |s.slots|
    requires forall i :: 0 <= i < |s.slots| ==> s'.slots[i].inUse == s.slots[i].inUse
    ensures UseIsHeld(s')
  {
    forall i | 0 <= i < |s'.slots| && s'.slots[i].inUse ensures SlotHeld(s'.pcs, i) {
      var u :| 0 <= u < |s.pcs| && Held(s.pcs[u]) == Some(i);
      assert Held(s'.pcs[u]) == Some(i);
    }
  }

  lemma AcquireUse(s: State, t: Tid)
    requires UseIsHeld(s) && Enabled(s, t, Go) && s.pcs[t].Acquire?
    ensures UseIsHeld(DoAcquire(s, t))
  {
    var j, s' := s.pcs[t].at, DoAcquire(s, t);
    if !s.slots[j].inUse {
      forall i | 0 <= i < |s'.slots| && s'.slots[i].inUse ensures SlotHeld(s'.pcs, i) {
        if i == j {
          assert Held(s'.pcs[t]) == Some(i);
        } else {
          var u :| 0 <= u < |s.pcs| && Held(s.pcs[u]) == Some(i);
          assert Held(s'.pcs[u]) == Some(i);
        }
      }
    } else {
      UseHeldKept(s, s', t);
    }
  }

  lemma ReleaseUse(s: State, t: Tid)
    requires UseIsHeld(s) && Enabled(s, t, Go) && s.pcs[t].DropRelease?
    ensures UseIsHeld(DoDropRelease(s, t))
  {
    var s' := DoDropRelease(s, t);
    forall i | 0 <= i < |s'.slots| && s'.slots[i].inUse ensures SlotHeld(s'.pcs, i) {
      var u :| 0 <= u < |s.pcs| && Held(s.pcs[u]) == Some(i);
      assert u != t && Held(s'.pcs[u]) == Some(i);
    }
  }

  lemma StepKeepsUse(s: State, t: Tid, m: Move)
    requires Inv(s) && UseIsHeld(s) && Enabled(s, t, m)
    ensures UseIsHeld(Step(s, t, m))
  {
    hide Shape, Ownership, Links, Protected, UseIsHeld, SlotsExclusive, WonByOthers, MutexHeld;
    if m.StartPop? {
      UseHeldKept(s, BeginPop(s, t), t);
    } else if m.Go? && s.pcs[t].Acquire? {
      AcquireUse(s, t);
    } else if m.Go? && s.pcs[t].DropRelease? {
      ReleaseUse(s, t);
    } else {
      var s' := Step(s, t, m);
      StepKeeps(s, t, m);
      OnlyOneMoves(s, t, m);
      assert Knows(s', t);
      OtherRanks(s, t, m);
      OtherUses(s, t, m);
      UseHeldKept(s, s', t);
    }
  }

  lemma {:induction false} RunKeepsUse(threads: nat, turns: seq<Turn>)
    requires Legal(Init(threads), turns)
    ensures UseIsHeld(Exec(Init(threads), turns))
  {
    if turns != [] {
      var n := |turns| - 1;
      RunKeepsUse(threads, turns[..n]);
      InitInv(threads);
      RunKeeps(Init(threads), turns[..n]);
      StepKeepsUse(Exec(Init(threads), turns[..n]), turns[n].t, turns[n].m);
    }
  }

  lemma AcquireCrowd(s: State, t: Tid, k: nat)
    requires UseIsHeld(s) && Crowd(s.pcs, k) && k <= MAX_HAZARDS
    requires Enabled(s, t, Go) && s.pcs[t].Acquire?
    ensures Crowd(DoAcquire(s, t).pcs, k)
  {
    hide AtLeast, Crowd;
    var j, s' := s.pcs[t].at, DoAcquire(s, t);
    if !s.slots[j].inUse {
      assert s'.pcs == s.pcs[t := PopLoad(j)];
      NoFurther(s.pcs, t, PopLoad(j), k);
    } else {
      var holder: nat :| 0 <= holder < |s.pcs| && Held(s.pcs[holder]) == Some(j);
      MovesOn(s.pcs, t, j, k, holder);
    }
  }

  predicate SameRank(a: Pc, b: Pc) {
    !b.Panicked? && Held(b) == Held(a) && Rank(b) == Rank(a)
  }

  lemma PushPopRanks(s: State, t: Tid)
    requires Enabled(s, t, Go) && IsPushOrPop(s.pcs[t]) && !s.pcs[t].Acquire? && !Step(s, t, Go).pcs[t].Fault?
    ensures SameRank(s.pcs[t], Step(s, t, Go).pcs[t])
  {
    hide WonByOthers, ValueAt, StampAt;
  }

  lemma RestRanks(s: State, t: Tid)
    requires Enabled(s, t, Go) && !IsPushOrPop(s.pcs[t]) && !s.pcs[t].DropRelease? && !Step(s, t, Go).pcs[t].Fault?
    ensures SameRank(s.pcs[t], Step(s, t, Go).pcs[t])
  {
  }

  lemma OtherRanks(s: State, t: Tid, m: Move)
    requires Enabled(s, t, m) && !Step(s, t, m).pcs[t].Fault? && !m.StartPop?
    requires m.Go? ==> !s.pcs[t].Acquire? && !s.pcs[t].DropRelease?
    ensures SameRank(s.pcs[t], Step(s, t, m).pcs[t])
  {
    if m.Go? {
      if IsPushOrPop(s.pcs[t]) { PushPopRanks(s, t); } else { RestRanks(s, t); }
    }
  }

  lemma OtherUses(s: State, t: Tid, m: Move)
    requires Enabled(s, t, m) && !m.StartPop? && (m.Go? ==> !s.pcs[t].Acquire? && !s.pcs[t].DropRelease?)
    ensures var slots := Step(s, t, m).slots;
      |slots| == |s.slots| && forall i :: 0 <= i < |s.slots| ==> slots[i].inUse == s.slots[i].inUse
  {
    hide WonByOthers;
  }

  lemma StepKeepsCrowd(s: State, t: Tid, m: Move, k: nat)
    requires Inv(s) && UseIsHeld(s) && Crowd(s.pcs, k) && k <= MAX_HAZARDS && Enabled(s, t, m)
    requires |AtLeast(Step(s, t, m).pcs, 0)| <= k
    ensures Crowd(Step(s, t, m).pcs, k)
  {
    hide AtLeast, Shape, Ownership, Links, Protected, Crowd, UseIsHeld, SlotsExclusive, WonByOthers, MutexHeld;
    if m.StartPop? {
      Joins(s.pcs, t, k);
    } else if m.Go? && s.pcs[t].Acquire? {
      AcquireCrowd(s, t, k);
    } else {
      var s' := Step(s, t, m);
      OnlyOneMoves(s, t, m);
      if m.Go? && s.pcs[t].DropRelease? {
        NoFurther(s.pcs, t, s'.pcs[t], k);
      } else {
        StepKeeps(s, t, m);
        assert Knows(s', t);
        OtherRanks(s, t, m);
        NoFurther(s.pcs, t, s'.pcs[t], k);
      }
    }
  }

  /** In every state of the run at most `k` threads are between asking for a slot and releasing it. */
  ghost predicate NeverCrowded(threads: nat, turns: seq<Turn>, k: nat)
  {
    forall n: nat :: n <= |turns| && Legal(Init(threads), turns[..n]) ==>
      |AtLeast(Exec(Init(threads), turns[..n]).pcs, 0)| <= k
  }

  lemma InitCrowd(threads: nat, k: nat)
    ensures Crowd(Init(threads).pcs, k)
  {
    var pcs := Init(threads).pcs;
    forall j: nat ensures AtLeast(pcs, j) == {} {
      forall t | 0 <= t < |pcs| ensures !From(pcs, t, j) {}
    }
  }

  lemma {:induction false} RunKeepsCrowd(threads: nat, turns: seq<Turn>, k: nat)
    requires Legal(Init(threads), turns) && NeverCrowded(threads, turns, k) && k <= MAX_HAZARDS
    ensures Crowd(Exec(Init(threads), turns).pcs, k)
  {
    hide AtLeast, Crowd, UseIsHeld;
    if turns == [] {
      InitCrowd(threads, k);
    } else {
      var n := |turns| - 1;
      forall i: nat | i <= n ensures turns[..n][..i] == turns[..i] {}
      assert turns[..|turns|] == turns;
      RunKeepsCrowd(threads, turns[..n], k);
      RunKeepsUse(threads, turns[..n]);
      InitInv(threads);
      RunKeeps(Init(threads), turns[..n]);
      StepKeepsCrowd(Exec(Init(threads), turns[..n]), turns[n].t, turns[n].m, k);
    }
  }

  /** Renaming: with at most k <= 64 participants at a time, no search for a slot ever comes back empty,
      every slot obtained has an index below k, and no two threads hold the same slot. */
  lemma AcquireNeverFails(threads: nat, turns: seq<Turn>, k: nat, t: Tid)
    requires Legal(Init(threads), turns) && NeverCrowded(threads, turns, k) && k <= MAX_HAZARDS && t < threads
    ensures var pcs := Exec(Init(threads), turns).pcs;
      && |pcs| == threads
      && !pcs[t].Panicked?
      && (Held(pcs[t]).Some? ==> Held(pcs[t]).value < k)
      && (forall u: Tid :: u < threads && u != t && Held(pcs[t]).Some? ==> Held(pcs[u]) != Held(pcs[t]))
  {
    InitInv(threads);
    RunKeeps(Init(threads), turns);
    HazardLinear.RunThreads(Init(threads), turns);
    RunKeepsCrowd(threads, turns, k);
    var pcs := Exec(Init(threads), turns).pcs;
    if Held(pcs[t]).Some? { SearcherWithin(pcs, t, Held(pcs[t]).value, k); }
  }

  // ---- how many threads it takes to run out of slots ----

  /** The run ends with thread `t` out of slots. */
  ghost predicate Panics(threads: nat, turns: seq<Turn>, t: Tid) {
    Legal(Init(threads), turns) && t < |Exec(Init(threads), turns).pcs| && Exec(Init(threads), turns).pcs[t].Panicked?
  }

  lemma {:induction false} AtMostAll(n: nat, ts: set<nat>)
    requires forall t :: t in ts ==> t < n
    ensures |ts| <= n
  {
    if n == 0 {
      assert ts == {};
    } else {
      AtMostAll(n - 1, ts - {n - 1});
      assert ts <= (ts - {n - 1}) + {n - 1};
      Subset(ts, (ts - {n - 1}) + {n - 1});
    }
  }

  /** With at most 64 threads nobody ever runs out of slots. */
  lemma FewThreadsNeverPanic(threads: nat, turns: seq<Turn>, t: Tid)
    requires threads <= MAX_HAZARDS
    ensures !Panics(threads, turns, t)
  {
    if Legal(Init(threads), turns) {
      forall n: nat | n <= |turns| && Legal(Init(threads), turns[..n])
        ensures |AtLeast(Exec(Init(threads), turns[..n]).pcs, 0)| <= MAX_HAZARDS
      {
        HazardLinear.RunThreads(Init(threads), turns[..n]);
        AtMostAll(threads, AtLeast(Exec(Init(threads), turns[..n]).pcs, 0));
      }
      HazardLinear.RunThreads(Init(threads), turns);
      if t < threads { AcquireNeverFails(threads, turns, MAX_HAZARDS, t); }
    }
  }

  /** Threads 0 to k - 1 hold the slots of the same number, the others are idle. */
  ghost predicate FilledTo(s: State, threads: nat, k: nat) {
    && |s.pcs| == threads && |s.slots| == MAX_HAZARDS && k <= MAX_HAZARDS && k <= threads
    && (forall t {:trigger s.pcs[t]} :: 0 <= t < threads ==> s.pcs[t] == if t < k then PopLoad(t) else Idle)
    && (forall i :: 0 <= i < MAX_HAZARDS ==> s.slots[i].inUse == (i < k))
  }

  ghost predicate Ends(threads: nat, turns: seq<Turn>, s: State) {
    Legal(Init(threads), turns) && Exec(Init(threads), turns) == s
  }

  lemma OneTurn(threads: nat, turns: seq<Turn>, s: State, t: Tid, m: Move) returns (longer: seq<Turn>, s': State)
    requires Ends(threads, turns, s) && Enabled(s, t, m)
    ensures s' == Step(s, t, m) && Ends(threads, longer, s')
  {
    hide Step, Enabled;
    longer, s' := turns + [Turn(t, m)], Step(s, t, m);
    assert longer[..|turns|] == turns;
  }

  /** Thread `t` starts a pop and passes the slots before `j`, all in use. */
  lemma {:induction false} Passes(threads: nat, turns: seq<Turn>, s: State, t: Tid, j: nat)
    returns (longer: seq<Turn>, s': State)
    requires Ends(threads, turns, s) && t < |s.pcs| && s.pcs[t].Idle? && |s.slots| == MAX_HAZARDS && j < MAX_HAZARDS
    requires forall i :: 0 <= i < j ==> s.slots[i].inUse
    ensures Ends(threads, longer, s') && s'.pcs == s.pcs[t := Acquire(j)] && s'.slots == s.slots
  {
    hide Ends, WonByOthers, Legal, Exec;
    if j == 0 {
      longer, s' := OneTurn(threads, turns, s, t, StartPop);
    } else {
      longer, s' := Passes(threads, turns, s, t, j - 1);
      longer, s' := OneTurn(threads, longer, s', t, Go);
    }
  }

  lemma {:induction false} Fills(threads: nat, k: nat) returns (turns: seq<Turn>, s: State)
    requires k <= MAX_HAZARDS && k <= threads
    ensures Ends(threads, turns, s) && FilledTo(s, threads, k)
  {
    hide WonByOthers;
    if k == 0 {
      turns, s := [], Init(threads);
    } else {
      turns, s := Fills(threads, k - 1);
      turns, s := Passes(threads, turns, s, k - 1, k - 1);
      turns, s := OneTurn(threads, turns, s, k - 1, Go);
    }
  }

  /** With 65 threads, 64 of them can be stopped with a slot each, and the next pop panics. */
  lemma ManyThreadsPanic(threads: nat) returns (turns: seq<Turn>)
    requires threads > MAX_HAZARDS
    ensures Panics(threads, turns, MAX_HAZARDS)
  {
    hide WonByOthers;
    var s;
    turns, s := Fills(threads, MAX_HAZARDS);
    turns, s := Passes(threads, turns, s, MAX_HAZARDS, MAX_HAZARDS - 1);
    turns, s := OneTurn(threads, turns, s, MAX_HAZARDS, Go);
  }

  /** Some run makes a pop panic for lack of a slot if and only if there are more than 64 threads. */
  lemma PanicsExactly(threads: nat)
    ensures (exists turns, t :: Panics(threads, turns, t)) <==> threads > 64
  {
    hide Panics;
    if threads <= MAX_HAZARDS {
      forall turns, t: Tid ensures !Panics(threads, turns, t) { FewThreadsNeverPanic(threads, turns, t); }
    } else {
      var turns := ManyThreadsPanic(threads);
    }
  }
}

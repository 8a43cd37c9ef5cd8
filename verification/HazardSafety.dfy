/** What a caller of the hazard-pointer stack gets from the invariant: no use after free,
    no double free, every node freed at most once, and a reclaimer that cannot get stuck. */
module HazardSafety {
  import opened Common
  import opened HazardStack
  import opened HazardInvariant
  import HazardLinear

  /** In every run no thread ever dereferences or frees an address that is not allocated, and a thread
      that passed its re-check, up to reading the value, still sees the incarnation it validated. */
  lemma NoUseAfterFree(threads: nat, turns: seq<Turn>, t: Tid)
    requires Legal(Init(threads), turns) && t < threads
    ensures var s := Exec(Init(threads), turns);
      && |s.pcs| == |s.hist.validated| == threads
      && !s.pcs[t].Fault?
      && (s.pcs[t].PopNext? || s.pcs[t].PopCas? || s.pcs[t].PopValue? ==>
            s.pcs[t].top in s.mem && s.mem[s.pcs[t].top].stamp == s.hist.validated[t])
      && (s.pcs[t].PushWrite? ==> s.pcs[t].node in s.mem)
      && (forall p :: p in s.retired ==> p in s.mem)
  {
    InitInv(threads);
    RunKeeps(Init(threads), turns);
    HazardLinear.RunThreads(Init(threads), turns);
    assert Knows(Exec(Init(threads), turns), t);
  }

  /** What that rules out: an access to an address that is not allocated is a fault, whichever step makes it. */
  lemma BadAccessFaults(s: State, t: Tid)
    requires Enabled(s, t, Go)
    requires match s.pcs[t]
      case PushWrite(node, _) => node !in s.mem
      case PopNext(_, top) => top !in s.mem
      case PopValue(_, top) => top !in s.mem
      case Sift(k, found, _) => k < |s.retired| && s.retired[k] !in found && s.retired[k] !in s.mem
      case _ => false
    ensures Step(s, t, Go).pcs[t].Fault?
  {
  }

  /** No step of another thread frees, reuses or changes the node a thread has validated. */
  lemma ValidatedNodeSurvives(s: State, t: Tid, u: Tid, m: Move)
    requires Inv(s) && Enabled(s, u, m) && t < |s.pcs| && t != u
    requires ValidatedPtr(s.pcs[t]).Some?
    ensures var p := s.pcs[t].top;
      p in s.mem && p in Step(s, u, m).mem && Step(s, u, m).mem[p] == s.mem[p]
  {
    assert Knows(s, t) && Knows(s, u);
    StepKeeps(s, u, m);
    OnlyOneMoves(s, u, m);
    assert Knows(Step(s, u, m), t);
    CellKept(s, u, m, s.pcs[t].top);
  }

  lemma CellKept(s: State, u: Tid, m: Move, p: Ptr)
    requires Enabled(s, u, m) && Knows(s, u) && p in s.mem && p in s.hist.owner && !s.hist.owner[p].Private?
    ensures p in Step(s, u, m).mem ==> Step(s, u, m).mem[p] == s.mem[p]
  {
    hide WonByOthers;
  }

  /** Push and pop never wait: only the two program counters that ask for the lock of the retired list do, exactly while
      somebody holds it, and whoever holds it can go on. */
  lemma NeverStuck(s: State, t: Tid)
    requires Inv(s) && t < |s.pcs|
    ensures s.pcs[t].RetireLock? || s.pcs[t].ForceLock? ==> (Enabled(s, t, Go) <==> s.mutex.None?)
    ensures !s.pcs[t].Idle? && !s.pcs[t].Panicked? && !s.pcs[t].RetireLock? && !s.pcs[t].ForceLock? ==> Enabled(s, t, Go)
    ensures s.pcs[t].Idle? || s.pcs[t].Panicked? ==> !Enabled(s, t, Go)
    ensures s.mutex.Some? ==> s.mutex.value < |s.pcs| && Enabled(s, s.mutex.value, Go)
  {
    assert Knows(s, t);
    if s.mutex.Some? { assert Knows(s, s.mutex.value); }
  }

  /** An idle thread may make each of its calls whatever the others are doing, and be handed every address that is not
      allocated at the moment; nobody else may call. */
  lemma CallsNeverWait(s: State, t: Tid, v: U32, at: Ptr)
    requires t < |s.pcs|
    ensures Enabled(s, t, StartPop) <==> s.pcs[t].Idle?
    ensures Enabled(s, t, StartReclaim) <==> s.pcs[t].Idle?
    ensures Enabled(s, t, StartPush(v, at)) <==> s.pcs[t].Idle? && at != NULL && at !in s.mem
  {
  }

  /** So in every run. */
  lemma RunNeverStuck(threads: nat, turns: seq<Turn>, t: Tid)
    requires Legal(Init(threads), turns) && t < threads
    ensures var s := Exec(Init(threads), turns);
      && |s.pcs| == threads
      && var pc := s.pcs[t];
      && !pc.Fault?
      && (Enabled(s, t, Go) <==> !pc.Idle? && !pc.Panicked? && (pc.RetireLock? || pc.ForceLock? ==> s.mutex.None?))
      && (s.mutex.Some? ==> Enabled(s, s.mutex.value, Go))
  {
    hide Legal, Exec, Enabled, Inv;
    InitInv(threads);
    RunKeeps(Init(threads), turns);
    HazardLinear.RunThreads(Init(threads), turns);
    NeverStuck(Exec(Init(threads), turns), t);
    NoUseAfterFree(threads, turns, t);
  }

  // ---- who holds which node ----

  function Pushers(pcs: seq<Pc>, p: Ptr): set<Tid> {
    set t | 0 <= t < |pcs| && PrivateNode(pcs[t]) == Some(p)
  }

  function Poppers(pcs: seq<Pc>, p: Ptr): set<Tid> {
    set t | 0 <= t < |pcs| && RemovedNode(pcs[t]) == Some(p)
  }

  /** The number of places that hold address `p`: pushers that have not published it, the chain from head, poppers that
      have not retired it, and the retired list. */
  function Claims(s: State, p: Ptr): nat {
    |Pushers(s.pcs, p)| + multiset(s.hist.chain)[p] + |Poppers(s.pcs, p)| + multiset(s.retired)[p]
  }

  lemma {:induction false} CountOnce(xs: seq<Ptr>, p: Ptr)
    requires NoDups(xs)
    ensures multiset(xs)[p] == if p in xs then 1 else 0
  {
    if xs != [] {
      var n := |xs| - 1;
      CountOnce(xs[..n], p);
      assert xs == xs[..n] + [xs[n]];
    }
  }

  /** In every run each allocated node is held in exactly one place, and by one thread if by threads; an address that is
      not allocated is held nowhere. */
  lemma NodePartition(threads: nat, turns: seq<Turn>, p: Ptr)
    requires Legal(Init(threads), turns)
    ensures var s := Exec(Init(threads), turns); Claims(s, p) == if p in s.mem then 1 else 0
  {
    InitInv(threads);
    RunKeeps(Init(threads), turns);
    InvPartition(Exec(Init(threads), turns), p);
  }

  lemma InvPartition(s: State, p: Ptr)
    requires Inv(s)
    ensures Claims(s, p) == if p in s.mem then 1 else 0
  {
    hide Protected, SlotsExclusive, Links;
    CountOnce(s.hist.chain, p);
    CountOnce(s.retired, p);
    PushersOwn(s, p);
    PoppersOwn(s, p);
  }

  lemma PushersOwn(s: State, p: Ptr)
    requires Shape(s) && Ownership(s) && AllKnow(s)
    ensures Pushers(s.pcs, p) == if p in s.mem && s.hist.owner[p].Private? then {s.hist.owner[p].t} else {}
  {
    forall t | t in Pushers(s.pcs, p) ensures Owns(s, p, Private(t)) { assert Knows(s, t); }
  }

  lemma PoppersOwn(s: State, p: Ptr)
    requires Shape(s) && Ownership(s) && AllKnow(s)
    ensures Poppers(s.pcs, p) == if p in s.mem && s.hist.owner[p].Removed? then {s.hist.owner[p].t} else {}
  {
    forall t | t in Poppers(s.pcs, p) ensures Owns(s, p, Removed(t)) { assert Knows(s, t); }
  }

  // ---- every allocation is freed at most once ----

  function LiveStamps(mem: map<Ptr, Cell>): set<nat> {
    set p | p in mem :: mem[p].stamp
  }

  /** Each allocation so far is either still live or was freed exactly once. */
  ghost predicate FreedOnce(s: State) {
    && (forall p, q :: p in s.mem && q in s.mem && p != q ==> s.mem[p].stamp != s.mem[q].stamp)
    && (forall g: nat :: s.hist.freed[g] + (if g in LiveStamps(s.mem) then 1 else 0)
                      == (if g < s.hist.stamp then 1 else 0))
  }

  lemma AllocFreedOnce(s: State, t: Tid, v: U32, at: Ptr)
    requires FreedOnce(s) && Enabled(s, t, StartPush(v, at))
    ensures FreedOnce(BeginPush(s, t, v, at))
  {
    var s' := BeginPush(s, t, v, at);
    forall g: nat ensures g in LiveStamps(s'.mem) <==> g in LiveStamps(s.mem) || g == s.hist.stamp {
      if g in LiveStamps(s.mem) {
        var p :| p in s.mem && s.mem[p].stamp == g;
        assert p in s'.mem && s'.mem[p].stamp == g;
      }
      if g == s.hist.stamp { assert at in s'.mem && s'.mem[at].stamp == g; }
    }
    forall p | p in s.mem ensures s.mem[p].stamp < s.hist.stamp {
      assert s.mem[p].stamp in LiveStamps(s.mem);
    }
  }

  lemma FreeFreedOnce(s: State, t: Tid)
    requires FreedOnce(s) && Frees(s, t)
    ensures FreedOnce(DoSift(s, t))
  {
    var s', p := DoSift(s, t), s.retired[s.pcs[t].at];
    forall g: nat ensures g in LiveStamps(s'.mem) <==> g in LiveStamps(s.mem) && g != s.mem[p].stamp {
      if g in LiveStamps(s.mem) && g != s.mem[p].stamp {
        var q :| q in s.mem && s.mem[q].stamp == g;
        assert q in s'.mem && s'.mem[q].stamp == g;
      }
    }
    assert s.mem[p].stamp in LiveStamps(s.mem);
  }

  lemma SameStampsFreedOnce(s: State, s': State)
    requires FreedOnce(s) && SameStamps(s, s')
    ensures FreedOnce(s')
  {
    forall g ensures g in LiveStamps(s'.mem) <==> g in LiveStamps(s.mem) {
      if g in LiveStamps(s.mem) {
        var p :| p in s.mem && s.mem[p].stamp == g;
        assert p in s'.mem && s'.mem[p].stamp == g;
      }
    }
  }

  ghost predicate SameStamps(s: State, s': State) {
    && s'.mem.Keys == s.mem.Keys && s'.hist.stamp == s.hist.stamp && s'.hist.freed == s.hist.freed
    && forall p :: p in s.mem ==> s'.mem[p].stamp == s.mem[p].stamp
  }

  lemma PushPopKeepStamps(s: State, t: Tid)
    requires Enabled(s, t, Go) && IsPushOrPop(s.pcs[t])
    ensures SameStamps(s, Step(s, t, Go))
  {
    hide WonByOthers, ValueAt, StampAt;
  }

  lemma RestKeepStamps(s: State, t: Tid)
    requires Enabled(s, t, Go) && !IsPushOrPop(s.pcs[t]) && !Frees(s, t)
    ensures SameStamps(s, Step(s, t, Go))
  {
    hide WonByOthers;
  }

  lemma StepFreedOnce(s: State, t: Tid, m: Move)
    requires FreedOnce(s) && Enabled(s, t, m)
    ensures FreedOnce(Step(s, t, m))
  {
    hide FreedOnce;
    if m.StartPush? { AllocFreedOnce(s, t, m.value, m.at); }
    else if m.Go? && Frees(s, t) { FreeFreedOnce(s, t); }
    else {
      if m.Go? { if IsPushOrPop(s.pcs[t]) { PushPopKeepStamps(s, t); } else { RestKeepStamps(s, t); } }
      SameStampsFreedOnce(s, Step(s, t, m));
    }
  }

  lemma {:induction false} RunFreesOnce(threads: nat, turns: seq<Turn>)
    requires Legal(Init(threads), turns)
    ensures FreedOnce(Exec(Init(threads), turns))
  {
    hide FreedOnce;
    if turns == [] {
      InitFreedOnce(threads);
    } else {
      var n := |turns| - 1;
      RunFreesOnce(threads, turns[..n]);
      StepFreedOnce(Exec(Init(threads), turns[..n]), turns[n].t, turns[n].m);
    }
  }

  lemma InitFreedOnce(threads: nat)
    ensures FreedOnce(Init(threads))
  {
    assert LiveStamps(map[]) == {};
  }
}

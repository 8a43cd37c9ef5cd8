/** Lock-freedom: every failed attempt of a thread is paid for by a success of another thread. */
module HazardProgress {
  import opened Common
  import opened HazardStack
  import opened HazardLinear

  /** Failed attempts of thread `t`: re-checks that did not match and exchanges that were lost. */
  function Failures(log: seq<Event>, t: Tid): nat {
    if log == [] then 0
    else
      var e := log[|log| - 1];
      Failures(log[..|log| - 1], t) + (if e.Retry? && e.t == t then 1 else 0)
  }

  /** All exchanges won. */
  function TotalWins(log: seq<Event>): nat {
    if log == [] then 0
    else TotalWins(log[..|log| - 1]) + (if Wins(log[|log| - 1]) then 1 else 0)
  }

  lemma CountMore(log: seq<Event>, e: Event)
    ensures forall t: Tid :: Failures(log + [e], t) == Failures(log, t) + (if e.Retry? && e.t == t then 1 else 0)
    ensures forall t: Tid :: WonByOthers(log + [e], t) == WonByOthers(log, t) + (if Wins(e) && e.t != t then 1 else 0)
    ensures TotalWins(log + [e]) == TotalWins(log) + (if Wins(e) then 1 else 0)
  {
    assert (log + [e])[..|log|] == log;
  }

  /** The value of head an attempt in progress relies on. */
  function Seen(pc: Pc): Option<Ptr> {
    match pc
    case PushWrite(_, seen) => Some(seen)
    case PushCas(_, seen) => Some(seen)
    case PopProtect(_, top) => Some(top)
    case PopVerify(_, top) => Some(top)
    case PopNext(_, top) => Some(top)
    case PopCas(_, top, _) => Some(top)
    case _ => None
  }

  /** Thread `t` has failed at most as often as others won before it last loaded head; and while nobody
      else has won since, head is still what it loaded. */
  ghost predicate Paid(s: State, t: Tid)
    requires t < |s.pcs| && |s.hist.base| == |s.pcs|
  {
    var failed, won := Failures(s.hist.log, t), WonByOthers(s.hist.log, t);
    && failed <= won
    && (Seen(s.pcs[t]).Some? ==>
          && failed <= s.hist.base[t] <= won
          && (s.hist.base[t] == won ==> s.head == Seen(s.pcs[t]).value))
  }

  ghost predicate ProgressInv(s: State) {
    && |s.hist.base| == |s.pcs|
    && forall t {:trigger s.pcs[t]} {:trigger Paid(s, t)} :: 0 <= t < |s.pcs| ==> Paid(s, t)
  }

  // ---- the kinds of steps ----

  /** No exchange is won: the other threads are not affected, the log may grow by a plain event. */
  lemma PlainStepPays(s: State, s': State, t: Tid, es: seq<Event>)
    requires ProgressInv(s) && t < |s.pcs| && OneMoves(s, s', t)
    requires s'.hist.log == s.hist.log + es && |es| <= 1 && (es != [] ==> !Wins(es[0]) && es[0].t == t)
    requires s'.hist.base == s.hist.base && s'.head == s.head
    requires es != [] && es[0].Retry? ==> Seen(s.pcs[t]).Some? && s.head != Seen(s.pcs[t]).value && Seen(s'.pcs[t]).None?
    requires Seen(s'.pcs[t]).Some? ==> Seen(s'.pcs[t]) == Seen(s.pcs[t])
    ensures ProgressInv(s')
  {
    if es != [] { CountMore(s.hist.log, es[0]); assert es == [es[0]]; } else { assert s'.hist.log == s.hist.log; }
    assert Paid(s, t);
    forall u | 0 <= u < |s'.pcs| ensures Paid(s', u) { assert Paid(s, u); }
  }

  /** Loading head starts a new attempt. */
  lemma LoadPays(s: State, s': State, t: Tid)
    requires ProgressInv(s) && t < |s.pcs| && OneMoves(s, s', t)
    requires s'.hist.log == s.hist.log && s'.head == s.head
    requires s'.hist.base == s.hist.base[t := WonByOthers(s.hist.log, t)]
    requires Seen(s'.pcs[t]) == Some(s.head)
    ensures ProgressInv(s')
  {
    assert Paid(s, t);
    forall u | 0 <= u < |s'.pcs| ensures Paid(s', u) { assert Paid(s, u); }
  }

  /** Winning an exchange pays one failure of every other thread. */
  lemma WinPays(s: State, s': State, t: Tid, e: Event, es: seq<Event>)
    requires ProgressInv(s) && t < |s.pcs| && OneMoves(s, s', t)
    requires Wins(e) && e.t == t && |es| <= 1 && (es != [] ==> es[0].Return?)
    requires s'.hist.log == (s.hist.log + [e]) + es && s'.hist.base == s.hist.base
    requires Seen(s'.pcs[t]).None?
    ensures ProgressInv(s')
  {
    CountMore(s.hist.log, e);
    if es != [] { CountMore(s.hist.log + [e], es[0]); assert es == [es[0]]; }
    else { assert s'.hist.log == s.hist.log + [e]; }
    forall u | 0 <= u < |s'.pcs| ensures Paid(s', u) { assert Paid(s, u); }
  }

  // ---- steps ----

  lemma PushCasPays(s: State, t: Tid)
    requires ProgressInv(s) && Enabled(s, t, Go) && s.pcs[t].PushCas?
    ensures ProgressInv(DoPushCas(s, t))
  {
    hide ProgressInv;
    var s' := DoPushCas(s, t);
    if s.head == s.pcs[t].seen {
      var v := ValueAt(s.mem, s.pcs[t].node);
      var e, r := TakeEffect(t, Pushed(v)), Return(t, Pushed(v));
      assert s'.hist.log == s.hist.log + [e, r] == (s.hist.log + [e]) + [r];
      WinPays(s, s', t, e, [r]);
    } else {
      PlainStepPays(s, s', t, [Retry(t)]);
    }
  }

  lemma PopCasPays(s: State, t: Tid)
    requires ProgressInv(s) && Enabled(s, t, Go) && s.pcs[t].PopCas?
    ensures ProgressInv(DoPopCas(s, t))
  {
    hide ProgressInv;
    var s' := DoPopCas(s, t);
    if s.head == s.pcs[t].top {
      var e := TakeEffect(t, Popped(ValueAt(s.mem, s.pcs[t].top)));
      assert s'.hist.log == (s.hist.log + [e]) + [];
      WinPays(s, s', t, e, []);
    } else {
      PlainStepPays(s, s', t, [Retry(t)]);
    }
  }

  lemma LoadStepPays(s: State, t: Tid)
    requires ProgressInv(s) && Enabled(s, t, Go) && (s.pcs[t].PushLoad? || s.pcs[t].PopLoad?)
    ensures ProgressInv(Step(s, t, Go))
  {
    hide WonByOthers, Failures;
    assert |s.hist.base| == |s.pcs|;
    var s' := Step(s, t, Go);
    if s.pcs[t].PopLoad? && s.head == NULL {
      PlainStepPays(s, s', t, [TakeEffect(t, FoundEmpty)]);
    } else {
      LoadPays(s, s', t);
    }
  }

  lemma VerifyPays(s: State, t: Tid)
    requires ProgressInv(s) && Enabled(s, t, Go) && s.pcs[t].PopVerify?
    ensures ProgressInv(DoPopVerify(s, t))
  {
    hide ProgressInv;
    var s' := DoPopVerify(s, t);
    if s.head == s.pcs[t].top {
      assert s'.hist.log == s.hist.log + [];
      PlainStepPays(s, s', t, []);
    } else {
      PlainStepPays(s, s', t, [Retry(t)]);
    }
  }

  /** The event a step that neither loads nor exchanges head may log. */
  function PlainEvents(s: State, t: Tid, m: Move): seq<Event>
    requires Enabled(s, t, m)
  {
    match m
    case StartPush(v, _) => [CallPush(t, v)]
    case StartPop => [CallPop(t)]
    case StartReclaim => []
    case Go =>
      match s.pcs[t]
      case DropRelease(_, ReturnNone) => [Return(t, FoundEmpty)]
      case Unlock(Some(v)) => [Return(t, Popped(v))]
      case _ => []
  }

  predicate UsesHead(pc: Pc) {
    pc.PushLoad? || pc.PushCas? || pc.PopLoad? || pc.PopVerify? || pc.PopCas?
  }

  lemma PlainEffects(s: State, t: Tid, m: Move)
    requires Enabled(s, t, m) && (m.Go? ==> !UsesHead(s.pcs[t]))
    ensures var s' := Step(s, t, m);
      s'.hist.log == s.hist.log + PlainEvents(s, t, m) && s'.hist.base == s.hist.base && s'.head == s.head
  {
    hide WonByOthers, ValueAt, StampAt;
  }

  lemma PlainSeen(s: State, t: Tid, m: Move)
    requires Enabled(s, t, m) && (m.Go? ==> !UsesHead(s.pcs[t]))
    ensures var pc := Step(s, t, m).pcs[t]; Seen(pc).Some? ==> Seen(pc) == Seen(s.pcs[t])
  {
    if m.Go? {
      if IsPushOrPop(s.pcs[t]) { PushPopSeen(s, t); } else { RestSeen(s, t); }
    }
  }

  lemma PushPopSeen(s: State, t: Tid)
    requires Enabled(s, t, Go) && IsPushOrPop(s.pcs[t]) && !UsesHead(s.pcs[t])
    ensures var pc := Step(s, t, Go).pcs[t]; Seen(pc).Some? ==> Seen(pc) == Seen(s.pcs[t])
  {
  }

  lemma RestSeen(s: State, t: Tid)
    requires Enabled(s, t, Go) && !IsPushOrPop(s.pcs[t])
    ensures Seen(Step(s, t, Go).pcs[t]).None?
  {
  }

  lemma StepPays(s: State, t: Tid, m: Move)
    requires ProgressInv(s) && Enabled(s, t, m)
    ensures ProgressInv(Step(s, t, m))
  {
    hide ProgressInv, Failures, WonByOthers;
    if !m.Go? || !UsesHead(s.pcs[t]) {
      OnlyOneMoves(s, t, m);
      PlainEffects(s, t, m);
      PlainSeen(s, t, m);
      PlainStepPays(s, Step(s, t, m), t, PlainEvents(s, t, m));
    }
    else if s.pcs[t].PushCas? { PushCasPays(s, t); }
    else if s.pcs[t].PopCas? { PopCasPays(s, t); }
    else if s.pcs[t].PopVerify? { VerifyPays(s, t); }
    else { LoadStepPays(s, t); }
  }

  lemma {:induction false} RunPays(threads: nat, turns: seq<Turn>)
    requires Legal(Init(threads), turns)
    ensures ProgressInv(Exec(Init(threads), turns))
  {
    if turns != [] {
      var n := |turns| - 1;
      RunPays(threads, turns[..n]);
      StepPays(Exec(Init(threads), turns[..n]), turns[n].t, turns[n].m);
    }
  }

  /** In every run, a thread fails at most as often as the other threads win an exchange. */
  lemma FailuresArePaidFor(threads: nat, turns: seq<Turn>, t: Tid)
    requires Legal(Init(threads), turns) && t < threads
    ensures var log := Exec(Init(threads), turns).hist.log; Failures(log, t) <= WonByOthers(log, t)
  {
    RunPays(threads, turns);
    RunThreads(Init(threads), turns);
    assert Paid(Exec(Init(threads), turns), t);
  }

  /** The attempt of thread `t` fails in this step: head is not what it loaded. */
  predicate Fails(s: State, t: Tid, m: Move) {
    t < |s.pcs| && m.Go? &&
    match s.pcs[t]
    case PushCas(_, seen) => s.head != seen
    case PopVerify(_, top) => s.head != top
    case PopCas(_, top, _) => s.head != top
    case _ => false
  }

  /** The step wins an exchange of head. */
  predicate WinsExchange(s: State, t: Tid, m: Move) {
    t < |s.pcs| && m.Go? && ((s.pcs[t].PushCas? && s.head == s.pcs[t].seen) || (s.pcs[t].PopCas? && s.head == s.pcs[t].top))
  }

  /** The log counts each failed attempt and each exchange won, no more and no fewer, and a failed attempt is made again
      from the load of head. */
  lemma LogCountsExactly(s: State, t: Tid, m: Move)
    requires Enabled(s, t, m)
    ensures var log := Step(s, t, m).hist.log;
      && Failures(log, t) == Failures(s.hist.log, t) + (if Fails(s, t, m) then 1 else 0)
      && TotalWins(log) == TotalWins(s.hist.log) + (if WinsExchange(s, t, m) then 1 else 0)
      && forall u: Tid :: u != t ==> Failures(log, u) == Failures(s.hist.log, u)
    ensures Fails(s, t, m) ==>
      Step(s, t, m).pcs[t] == if s.pcs[t].PushCas? then PushLoad(s.pcs[t].node) else PopLoad(s.pcs[t].slot)
  {
    hide Failures, TotalWins, WonByOthers;
    if !m.Go? || !UsesHead(s.pcs[t]) {
      PlainEffects(s, t, m);
      CountAll(s.hist.log, PlainEvents(s, t, m));
    } else {
      HeadStepLogs(s, t);
      CountAll(s.hist.log, HeadLog(s, t));
    }
  }

  /** The events of a step that loads or exchanges head. */
  function HeadLog(s: State, t: Tid): seq<Event>
    requires t < |s.pcs|
  {
    match s.pcs[t]
    case PushCas(node, seen) =>
      var f := Pushed(ValueAt(s.mem, node));
      if s.head == seen then [TakeEffect(t, f), Return(t, f)] else [Retry(t)]
    case PopLoad(_) => if s.head == NULL then [TakeEffect(t, FoundEmpty)] else []
    case PopVerify(_, top) => if s.head == top then [] else [Retry(t)]
    case PopCas(_, top, _) => if s.head == top then [TakeEffect(t, Popped(ValueAt(s.mem, top)))] else [Retry(t)]
    case _ => []
  }

  lemma HeadStepLogs(s: State, t: Tid)
    requires Enabled(s, t, Go) && UsesHead(s.pcs[t])
    ensures Step(s, t, Go).hist.log == s.hist.log + HeadLog(s, t)
    ensures Fails(s, t, Go) ==>
      Step(s, t, Go).pcs[t] == if s.pcs[t].PushCas? then PushLoad(s.pcs[t].node) else PopLoad(s.pcs[t].slot)
  {
    hide WonByOthers, ValueAt, StampAt;
  }

  /** One if event `k` is there and is a failed attempt of thread `u`. */
  function RetryOf(es: seq<Event>, k: nat, u: Tid): nat {
    if k < |es| && es[k].Retry? && es[k].t == u then 1 else 0
  }

  /** Counting over at most two more events. */
  lemma CountAll(log: seq<Event>, es: seq<Event>)
    requires |es| <= 2
    ensures forall u: Tid :: Failures(log + es, u) == Failures(log, u) + RetryOf(es, 0, u) + RetryOf(es, 1, u)
    ensures TotalWins(log + es) == TotalWins(log) + WinOf(es, 0) + WinOf(es, 1)
  {
    hide Failures, TotalWins;
    if es == [] {
      assert log + es == log;
    } else {
      CountMore(log, es[0]);
      if |es| == 1 {
        assert es == [es[0]];
      } else {
        CountMore(log + [es[0]], es[1]);
        assert log + es == (log + [es[0]]) + [es[1]];
      }
    }
  }

  /** One if event `k` is there and wins. */
  function WinOf(es: seq<Event>, k: nat): nat {
    if k < |es| && Wins(es[k]) then 1 else 0
  }

  // ---- all threads together ----

  function AllFailures(log: seq<Event>, threads: nat): nat {
    if threads == 0 then 0 else AllFailures(log, threads - 1) + Failures(log, threads - 1)
  }

  function AllWonByOthers(log: seq<Event>, threads: nat): nat {
    if threads == 0 then 0 else AllWonByOthers(log, threads - 1) + WonByOthers(log, threads - 1)
  }

  lemma {:induction false} OneWinCountsForTheOthers(log: seq<Event>, threads: nat, e: Event)
    ensures AllWonByOthers(log + [e], threads) == AllWonByOthers(log, threads)
         + (if Wins(e) then threads - (if e.t < threads then 1 else 0) else 0)
  {
    CountMore(log, e);
    if threads > 0 { OneWinCountsForTheOthers(log, threads - 1, e); }
  }

  lemma {:induction false} OthersAddUp(log: seq<Event>, threads: nat)
    requires threads > 0 && forall k :: 0 <= k < |log| ==> log[k].t < threads
    ensures AllWonByOthers(log, threads) == (threads - 1) * TotalWins(log)
  {
    if log == [] {
      NothingWon(threads);
    } else {
      var n := |log| - 1;
      OthersAddUp(log[..n], threads);
      assert log == log[..n] + [log[n]];
      OneWinCountsForTheOthers(log[..n], threads, log[n]);
      if Wins(log[n]) { Distribute(threads - 1, TotalWins(log[..n])); }
    }
  }

  lemma {:induction false} NothingWon(threads: nat)
    ensures AllWonByOthers([], threads) == 0
  {
    if threads > 0 { NothingWon(threads - 1); }
  }

  lemma Distribute(a: nat, b: nat)
    ensures a * (b + 1) == a * b + a
  {
  }

  /** Every event in the log belongs to a thread of the machine. */
  ghost predicate OwnEvents(s: State) {
    forall k :: 0 <= k < |s.hist.log| ==> s.hist.log[k].t < |s.pcs|
  }

  lemma StepEvents(s: State, t: Tid, m: Move)
    requires OwnEvents(s) && Enabled(s, t, m)
    ensures OwnEvents(Step(s, t, m))
  {
    OnlyOneMoves(s, t, m);
    if !m.Go? || !UsesHead(s.pcs[t]) { PlainEffects(s, t, m); }
    else { HeadEvents(s, t); }
  }

  lemma HeadEvents(s: State, t: Tid)
    requires Enabled(s, t, Go) && UsesHead(s.pcs[t])
    ensures var log := Step(s, t, Go).hist.log;
      |s.hist.log| <= |log| && log[..|s.hist.log|] == s.hist.log
      && forall k :: |s.hist.log| <= k < |log| ==> log[k].t == t
  {
    hide WonByOthers, ValueAt, StampAt;
  }

  lemma {:induction false} RunEvents(threads: nat, turns: seq<Turn>)
    requires Legal(Init(threads), turns)
    ensures OwnEvents(Exec(Init(threads), turns))
  {
    if turns != [] {
      var n := |turns| - 1;
      RunEvents(threads, turns[..n]);
      StepEvents(Exec(Init(threads), turns[..n]), turns[n].t, turns[n].m);
    }
  }

  lemma {:induction false} SumOfFailures(log: seq<Event>, n: nat)
    requires forall t: Tid :: t < n ==> Failures(log, t) <= WonByOthers(log, t)
    ensures AllFailures(log, n) <= AllWonByOthers(log, n)
  {
    if n > 0 { SumOfFailures(log, n - 1); }
  }

  /** N threads together fail at most N - 1 times per exchange won, over any run. */
  lemma LockFree(threads: nat, turns: seq<Turn>)
    requires Legal(Init(threads), turns) && threads > 0
    ensures var log := Exec(Init(threads), turns).hist.log;
      AllFailures(log, threads) <= (threads - 1) * TotalWins(log)
  {
    var log := Exec(Init(threads), turns).hist.log;
    forall t: Tid | t < threads ensures Failures(log, t) <= WonByOthers(log, t) { FailuresArePaidFor(threads, turns, t); }
    SumOfFailures(log, threads);
    RunEvents(threads, turns);
    RunThreads(Init(threads), turns);
    OthersAddUp(log, threads);
  }
}

/** Exactly when the plain stack survives the reuse of an address: at the moment the address is handed out, no pop may
    hold it, except that with just one other thread that pop may be about to install the head there is. */
module PlainReuse {
  import opened Common
  import opened HazardStack
  import opened HazardInvariant
  import opened HazardLinear
  import opened PlainTreiber

  /** The list that starts at head holds the values of the atomic stack, top first. */
  ghost predicate Faithful(s: Plain) {
    exists chain :: Links(s.mem, s.head, chain) && Replay(s.log) == Some(Values(s.mem, chain))
  }

  // ---- an address that is never handed out twice is always harmless ----

  predicate HandedOut(turns: seq<PlainTurn>, p: Ptr) {
    exists k :: 0 <= k < |turns| && turns[k].m.CallPushAt? && turns[k].m.at == p
  }

  predicate NoReuse(turns: seq<PlainTurn>) {
    forall k :: 0 <= k < |turns| && turns[k].m.CallPushAt? ==> !HandedOut(turns[..k], turns[k].m.at)
  }

  /** Every node in memory or held by a pop was handed out. */
  ghost predicate AllHandedOut(turns: seq<PlainTurn>, s: Plain) {
    && (forall p :: p in s.mem ==> HandedOut(turns, p))
    && (forall u {:trigger s.pcs[u]} :: 0 <= u < |s.pcs| && HeldTop(s.pcs[u]).Some? ==>
          HandedOut(turns, HeldTop(s.pcs[u]).value))
  }

  lemma StillHandedOut(turns: seq<PlainTurn>, turn: PlainTurn, p: Ptr)
    requires HandedOut(turns, p)
    ensures HandedOut(turns + [turn], p)
  {
    var k :| 0 <= k < |turns| && turns[k].m.CallPushAt? && turns[k].m.at == p;
    assert (turns + [turn])[k] == turns[k];
  }

  /** What is in memory or held after a step was before, or is the address handed out, or was head. */
  lemma StepSources(s: Plain, t: Tid, m: PlainMove)
    requires May(s, t, m)
    ensures forall p :: p in Next(s, t, m).mem ==> p in s.mem || (m.CallPushAt? && p == m.at)
    ensures forall u :: 0 <= u < |s.pcs| && HeldTop(Next(s, t, m).pcs[u]).Some? ==>
      HeldTop(Next(s, t, m).pcs[u]) == HeldTop(s.pcs[u]) || (HeldTop(Next(s, t, m).pcs[u]) == Some(s.head) && s.head != NULL)
  {
  }

  lemma StepHandsOut(turns: seq<PlainTurn>, s: Plain, t: Tid, m: PlainMove)
    requires AllHandedOut(turns, s) && May(s, t, m) && (s.head != NULL ==> s.head in s.mem)
    ensures AllHandedOut(turns + [PlainTurn(t, m)], Next(s, t, m))
  {
    StepSources(s, t, m);
    hide Next, May;
    var longer := turns + [PlainTurn(t, m)];
    forall p | HandedOut(turns, p) ensures HandedOut(longer, p) { StillHandedOut(turns, PlainTurn(t, m), p); }
    if m.CallPushAt? { assert longer[|turns|].m.at == m.at; }
    hide HandedOut;
  }

  /** Without reuse every run is guarded. */
  lemma {:induction false} NoReuseIsGuarded(threads: nat, turns: seq<PlainTurn>)
    requires Runs(Start(threads), turns) && NoReuse(turns)
    ensures Guarded(Start(threads), turns, 0) && AllHandedOut(turns, After(Start(threads), turns))
  {
    hide Next, May, HandedOut, AllHandedOut, NoReuse, Harmless, SafeInv;
    if turns == [] {
      NothingHandedOut(threads);
    } else {
      var n := |turns| - 1;
      ShorterNoReuse(turns);
      NoReuseIsGuarded(threads, turns[..n]);
      GuardedKeeps(threads, turns[..n]);
      var s := After(Start(threads), turns[..n]);
      HeadAllocated(s);
      StepHandsOut(turns[..n], s, turns[n].t, turns[n].m);
      if turns[n].m.CallPushAt? { NewIsHarmless(turns[..n], s, turns[n].m.at); }
      assert turns == turns[..n] + [PlainTurn(turns[n].t, turns[n].m)];
    }
  }

  lemma NothingHandedOut(threads: nat)
    ensures AllHandedOut([], Start(threads))
  {
  }

  lemma ShorterNoReuse(turns: seq<PlainTurn>)
    requires NoReuse(turns) && turns != []
    ensures var n := |turns| - 1;
      NoReuse(turns[..n]) && (turns[n].m.CallPushAt? ==> !HandedOut(turns[..n], turns[n].m.at))
  {
    var n := |turns| - 1;
    forall k | 0 <= k < n ensures turns[..n][..k] == turns[..k] {}
  }

  lemma HeadAllocated(s: Plain)
    requires SafeInv(s)
    ensures s.head != NULL ==> s.head in s.mem
  {
    if s.head != NULL { HeadIsLinked(s); }
  }

  lemma NewIsHarmless(turns: seq<PlainTurn>, s: Plain, at: Ptr)
    requires AllHandedOut(turns, s) && !HandedOut(turns, at)
    ensures Harmless(s, at)
  {
    hide HandedOut;
  }

  // ---- building runs ----

  /** `turns` leads to `s`, and hands out only harmless addresses from turn `from` on. */
  ghost predicate On(threads: nat, from: nat, turns: seq<PlainTurn>, s: Plain) {
    Runs(Start(threads), turns) && After(Start(threads), turns) == s && Guarded(Start(threads), turns, from)
  }

  /** One more turn. */
  lemma Go(threads: nat, from: nat, turns: seq<PlainTurn>, s: Plain, t: Tid, m: PlainMove)
    returns (longer: seq<PlainTurn>, s': Plain)
    requires On(threads, from, turns, s) && May(s, t, m)
    requires m.CallPushAt? && from <= |turns| ==> Harmless(s, m.at)
    ensures s' == Next(s, t, m) && longer == turns + [PlainTurn(t, m)] && On(threads, from, longer, s')
  {
    hide Next, May, Harmless;
    longer, s' := turns + [PlainTurn(t, m)], Next(s, t, m);
    assert longer[..|turns|] == turns;
  }

  /** A push by `t` that nobody interferes with, from the moment it has its node. */
  lemma FinishPush(threads: nat, from: nat, turns: seq<PlainTurn>, s: Plain, t: Tid, at: Ptr)
    returns (longer: seq<PlainTurn>, s': Plain)
    requires On(threads, from, turns, s) && t < |s.pcs| && s.pcs[t] == LoadHead(at) && at in s.mem
    ensures On(threads, from, longer, s') && turns <= longer
    ensures s'.head == at && s'.mem == s.mem[at := s.mem[at].(next := s.head)] && s'.pcs == s.pcs[t := Resting]
    ensures Replay(s.log).Some? ==> Replay(s'.log) == Some([s.mem[at].value] + Replay(s.log).value)
  {
    hide Replay, CallsOf, On, Values;
    var log := s.log;
    longer, s' := Go(threads, from, turns, s, t, Continue);
    longer, s' := Go(threads, from, longer, s', t, Continue);
    longer, s' := Go(threads, from, longer, s', t, Continue);
    var e, r := TakeEffect(t, Pushed(s.mem[at].value)), Return(t, Pushed(s.mem[at].value));
    assert s'.log == (log + [e]) + [r];
    ReplayMore(log, e);
    ReplayMore(log + [e], r);
  }

  /** A whole push that nobody interferes with. */
  lemma PushAlone(threads: nat, from: nat, turns: seq<PlainTurn>, s: Plain, t: Tid, v: U32, at: Ptr)
    returns (longer: seq<PlainTurn>, s': Plain)
    requires On(threads, from, turns, s) && May(s, t, CallPushAt(v, at)) && Harmless(s, at)
    ensures On(threads, from, longer, s') && turns <= longer
    ensures s'.head == at && s'.mem == s.mem[at := Cell(v, s.head, 0)] && s'.pcs == s.pcs
    ensures Replay(s.log).Some? ==> Replay(s'.log) == Some([v] + Replay(s.log).value)
  {
    hide Replay, CallsOf, On, Harmless;
    var log := s.log;
    longer, s' := Go(threads, from, turns, s, t, CallPushAt(v, at));
    ReplayMore(log, CallPush(t, v));
    longer, s' := FinishPush(threads, from, longer, s', t, at);
  }

  // ---- letting a thread finish ----

  /** Turns thread `w` needs to come to rest when nobody else moves. */
  function Distance(s: Plain, w: Tid): nat
    requires w < |s.pcs|
  {
    match s.pcs[w]
    case Resting => 0
    case Crashed => 0
    case LoadHead(_) => 3
    case LinkNode(_, seen) => if s.head == seen then 2 else 5
    case SwapHead(_, seen) => if s.head == seen then 1 else 4
    case PopStart => if s.head == NULL then 1 else 4
    case PopRead(top) => if s.head == top then 3 else 6
    case PopSwap(top, _) => if s.head == top then 2 else 5
    case PopFree(_) => 1
  }

  /** Nobody holds the node thread `w` pushes. */
  ghost predicate Unheld(s: Plain, w: Tid)
    requires w < |s.pcs|
  {
    forall u {:trigger s.pcs[u]} :: 0 <= u < |s.pcs| && NodeOf(s.pcs[w]).Some? ==> HeldTop(s.pcs[u]) != NodeOf(s.pcs[w])
  }

  /** The next move of thread `w` when it is in the middle of an operation. */
  function Onward(s: Plain, w: Tid): PlainMove
    requires w < |s.pcs|
  {
    if s.pcs[w].PopRead? && s.pcs[w].top !in s.mem then Stale(NULL) else Continue
  }

  lemma OneCloser(s: Plain, w: Tid)
    requires PlainInv(s) && w < |s.pcs| && !s.pcs[w].Resting? && Unheld(s, w)
    ensures var m := Onward(s, w);
      && May(s, w, m) && Distance(Next(s, w, m), w) < Distance(s, w)
      && Next(s, w, m).pcs == s.pcs[w := Next(s, w, m).pcs[w]]
      && (NodeOf(Next(s, w, m).pcs[w]).Some? ==> NodeOf(Next(s, w, m).pcs[w]) == NodeOf(s.pcs[w]))
  {
    hide Books, Logged;
    assert Sure(s, w);
  }

  lemma StaysUnheld(s: Plain, w: Tid)
    requires PlainInv(s) && w < |s.pcs| && !s.pcs[w].Resting? && Unheld(s, w)
    ensures May(s, w, Onward(s, w))
    ensures PlainInv(Next(s, w, Onward(s, w))) && Unheld(Next(s, w, Onward(s, w)), w)
  {
    OneCloser(s, w);
    hide PlainInv, Next;
    NextKeeps(s, w, Onward(s, w));
    var s' := Next(s, w, Onward(s, w));
    forall u | 0 <= u < |s'.pcs| && NodeOf(s'.pcs[w]).Some? ensures HeldTop(s'.pcs[u]) != NodeOf(s'.pcs[w]) {
      assert HeldTop(s.pcs[u]) != NodeOf(s.pcs[w]);
    }
  }

  /** Thread `w` comes to rest; the others stay where they are. */
  lemma {:induction false} Rest(threads: nat, from: nat, turns: seq<PlainTurn>, s: Plain, w: Tid)
    returns (longer: seq<PlainTurn>, s': Plain)
    requires On(threads, from, turns, s) && PlainInv(s) && w < |s.pcs| && Unheld(s, w)
    ensures On(threads, from, longer, s') && turns <= longer
    ensures PlainInv(s') && s'.pcs == s.pcs[w := Resting]
    decreases Distance(s, w)
  {
    hide On, PlainInv, Unheld, Next, May, Distance;
    if s.pcs[w].Resting? {
      longer, s' := turns, s;
    } else {
      OneCloser(s, w);
      StaysUnheld(s, w);
      var m := Onward(s, w);
      longer, s' := Go(threads, from, turns, s, w, m);
      longer, s' := Rest(threads, from, longer, s', w);
    }
  }

  // ---- what a harmful allocation leads to ----

  lemma {:induction false} Beyond(ps: set<Ptr>) returns (p: Ptr)
    ensures forall q :: q in ps ==> q < p
  {
    if ps == {} {
      p := 0;
    } else {
      var q :| q in ps;
      var r := Beyond(ps - {q});
      p := if q < r then r else q + 1;
      forall x | x in ps ensures x < p { assert x == q || x in ps - {q}; }
    }
  }

  /** An address that is not allocated, not null, not `n` and not held by a pop. */
  lemma FreshAddress(s: Plain, n: Ptr) returns (p: Ptr)
    ensures p !in s.mem && p != NULL && p != n && Harmless(s, p)
  {
    var held := set u | 0 <= u < |s.pcs| && HeldTop(s.pcs[u]).Some? :: HeldTop(s.pcs[u]).value;
    p := Beyond(s.mem.Keys + held + {NULL, n});
    forall u | 0 <= u < |s.pcs| ensures HeldTop(s.pcs[u]) != Some(p) {
      if HeldTop(s.pcs[u]).Some? { assert HeldTop(s.pcs[u]).value in held; }
    }
  }

  /** The last step: thread `u` installs what it has read as head, and takes the value on top. */
  lemma LastStep(threads: nat, from: nat, turns: seq<PlainTurn>, s: Plain, u: Tid, at: Ptr, n: Ptr)
    returns (longer: seq<PlainTurn>, s': Plain)
    requires On(threads, from, turns, s) && u < |s.pcs| && s.pcs[u] == PopSwap(at, n) && s.head == at && at in s.mem
    requires Replay(s.log).Some? && Replay(s.log).value != [] && Replay(s.log).value[0] == s.mem[at].value
    ensures On(threads, from, longer, s') && turns <= longer
    ensures s'.head == n && s'.mem == s.mem && Replay(s'.log) == Some(Replay(s.log).value[1..])
  {
    hide Replay, CallsOf, On;
    longer, s' := Go(threads, from, turns, s, u, Continue);
    ReplayMore(s.log, TakeEffect(u, Popped(s.mem[at].value)));
  }

  /** Thread `u`, which holds `at`, has read some successor. */
  lemma ReadNow(threads: nat, from: nat, turns: seq<PlainTurn>, s: Plain, u: Tid, at: Ptr)
    returns (longer: seq<PlainTurn>, s': Plain, n: Ptr)
    requires On(threads, from, turns, s) && u < |s.pcs| && HeldTop(s.pcs[u]) == Some(at) && at in s.mem
    ensures On(threads, from, longer, s') && turns <= longer
    ensures s'.pcs == s.pcs[u := PopSwap(at, n)] && s'.head == s.head && s'.mem == s.mem && s'.chain == s.chain
    ensures s'.log == s.log && s'.owner == s.owner
    ensures n == if s.pcs[u].PopRead? then s.mem[at].next else Expects(s.pcs[u])
  {
    hide On;
    if s.pcs[u].PopRead? {
      longer, s' := Go(threads, from, turns, s, u, Continue);
      n := s.mem[at].next;
    } else {
      longer, s', n := turns, s, s.pcs[u].next;
      assert s.pcs[u := PopSwap(at, n)] == s.pcs;
    }
  }

  /** A head with another value than the top of the atomic stack. */
  lemma WrongTop(s: Plain, top: U32, rest: seq<U32>)
    requires Replay(s.log) == Some([top] + rest) && NULL !in s.mem && (s.head in s.mem ==> s.mem[s.head].value != top)
    ensures !Faithful(s)
  {
    hide Replay;
    forall chain | Links(s.mem, s.head, chain) ensures Values(s.mem, chain) != [top] + rest {
      if chain != [] {
        assert chain[0] in s.mem;
        assert Values(s.mem, chain)[0] == s.mem[s.head].value;
        assert ([top] + rest)[0] == top;
      } else {
        assert |Values(s.mem, chain)| == 0;
      }
    }
  }

  /** With a third thread `w`: it pushes one more node between the harmful allocation and the link. */
  lemma ThirdThreadLoses(threads: nat, from: nat, turns: seq<PlainTurn>, s: Plain, t: Tid, u: Tid, w: Tid, at: Ptr)
    returns (longer: seq<PlainTurn>, s': Plain)
    requires On(threads, from, turns, s) && PlainInv(s)
    requires t < |s.pcs| && u < |s.pcs| && w < |s.pcs| && t != u && u != w && t != w
    requires s.pcs[t] == LoadHead(at) && HeldTop(s.pcs[u]) == Some(at) && Unheld(s, w)
    ensures On(threads, from, longer, s') && turns <= longer && !Faithful(s')
  {
    hide On, Replay, CallsOf, Values, Links, NoDups, Unheld, Harmless;
    longer, s' := Rest(threads, from, turns, s, w);
    assert Sure(s', t) && Books(s') && Logged(s');
    var n;
    longer, s', n := ReadNow(threads, from, longer, s', u, at);
    var f: U32 := if ValueAt(s'.mem, n) == 0 then 1 else 0;
    var before := Replay(s'.log).value;
    var x := FreshAddress(s', n);
    longer, s' := PushAlone(threads, from, longer, s', w, f, x);
    longer, s' := FinishPush(threads, from, longer, s', t, at);
    longer, s' := LastStep(threads, from, longer, s', u, at, n);
    WrongTop(s', f, before);
  }

  /** No list as long as `c` starts at `n`. */
  lemma NoOtherList(mem: map<Ptr, Cell>, h: Ptr, c: seq<Ptr>, at: Ptr, n: Ptr, d: seq<Ptr>)
    requires NULL !in mem && Links(mem, h, c) && Links(mem, n, d) && n != h
    requires at in mem && mem[at].next == h && forall p :: p in mem ==> p == at || p in c
    ensures |d| != |c|
  {
    NullMeansEmpty(mem, h, c);
    NullMeansEmpty(mem, n, d);
    if d != [] {
      LinksTail(mem, n, d);
      if n == at {
        ChainIsDetermined(mem, h, c, d[1..]);
      } else {
        var k :| 0 <= k < |c| && c[k] == n;
        LinksFrom(mem, h, c, k);
        ChainIsDetermined(mem, n, c[k..], d);
      }
    }
  }

  lemma {:induction false} LinksFrom(mem: map<Ptr, Cell>, h: Ptr, c: seq<Ptr>, k: nat)
    requires Links(mem, h, c) && k <= |c|
    ensures Links(mem, First(c[k..]), c[k..])
  {
    if k == 0 {
      assert c[0..] == c;
    } else {
      LinksFrom(mem, h, c, k - 1);
      LinksTail(mem, First(c[k - 1..]), c[k - 1..]);
      assert c[k - 1..][1..] == c[k..];
    }
  }

  /** With only the pop `u` besides: it installs something else than the head there was. */
  lemma SecondThreadLoses(threads: nat, from: nat, turns: seq<PlainTurn>, s: Plain, t: Tid, u: Tid, at: Ptr)
    returns (longer: seq<PlainTurn>, s': Plain)
    requires On(threads, from, turns, s) && PlainInv(s) && Accounted(s) && |s.pcs| == 2
    requires t < 2 && u < 2 && t != u && s.pcs[t] == LoadHead(at) && HeldTop(s.pcs[u]) == Some(at)
    requires at in s.mem && s.mem[at].next == NULL && Expects(s.pcs[u]) != s.head
    ensures On(threads, from, longer, s') && turns <= longer && !Faithful(s')
  {
    hide On, Replay, CallsOf, Links, NoDups;
    assert Sure(s, t);
    var c, h := s.chain, s.head;
    var n;
    longer, s', n := ReadNow(threads, from, turns, s, u, at);
    longer, s' := FinishPush(threads, from, longer, s', t, at);
    longer, s' := LastStep(threads, from, longer, s', u, at, n);
    assert at !in c;
    LinksElsewhere(s.mem, s'.mem, h, c);
    forall p | p in s'.mem ensures p == at || p in c { assert p in s.owner; }
    forall d | Links(s'.mem, s'.head, d) ensures |Values(s'.mem, d)| != |Values(s.mem, c)| {
      NoOtherList(s'.mem, h, c, at, n, d);
    }
  }

  /** The thread among 0, 1 and 2 that is neither `t` nor `u`. */
  function Third(t: Tid, u: Tid): (w: Tid)
    ensures w < 3 && w != t && w != u
  {
    if t != 0 && u != 0 then 0 else if t != 1 && u != 1 then 1 else 2
  }

  /** A harmful allocation can be continued, with harmless ones only, to a state in which the list from head is not
      the stack any more. */
  lemma HarmfulLoses(threads: nat, turns: seq<PlainTurn>, t: Tid, v: U32, at: Ptr) returns (longer: seq<PlainTurn>)
    requires Runs(Start(threads), turns) && Guarded(Start(threads), turns, 0)
    requires May(After(Start(threads), turns), t, CallPushAt(v, at)) && !Harmless(After(Start(threads), turns), at)
    ensures turns + [PlainTurn(t, CallPushAt(v, at))] <= longer && Runs(Start(threads), longer)
    ensures Guarded(Start(threads), longer, |turns| + 1) && !Faithful(After(Start(threads), longer))
  {
    hide Runs, Guarded, Faithful, PlainInv, Next, Calm, Accounted;
    var s := After(Start(threads), turns);
    GuardedKeeps(threads, turns);
    var u :| 0 <= u < |s.pcs| && HeldTop(s.pcs[u]) == Some(at) && (|s.pcs| != 2 || Expects(s.pcs[u]) != s.head);
    var from := |turns| + 1;
    assert On(threads, from, turns, s) by { GuardedLater(threads, turns, from); }
    var s';
    longer, s' := Go(threads, from, turns, s, t, CallPushAt(v, at));
    AfterAllocation(s, t, v, at);
    if |s.pcs| == 2 {
      longer, s' := SecondThreadLoses(threads, from, longer, s', t, u, at);
    } else {
      var w := Third(t, u);
      CalmMeansUnheld(s, t, v, at, w);
      longer, s' := ThirdThreadLoses(threads, from, longer, s', t, u, w, at);
    }
  }

  lemma GuardedLater(threads: nat, turns: seq<PlainTurn>, from: nat)
    requires Runs(Start(threads), turns) && |turns| <= from
    ensures Guarded(Start(threads), turns, from)
  {
  }

  lemma AfterAllocation(s: Plain, t: Tid, v: U32, at: Ptr)
    requires SafeInv(s) && May(s, t, CallPushAt(v, at))
    ensures var s' := Next(s, t, CallPushAt(v, at));
      && PlainInv(s') && Accounted(s') && s'.pcs == s.pcs[t := LoadHead(at)] && s'.head == s.head
      && at in s'.mem && s'.mem[at].next == NULL
  {
    hide PlainInv, Accounted, Calm, Suits;
    CalmSuits(s, t);
    NextKeeps(s, t, CallPushAt(v, at));
    assert AllSure(s) by { SureOf(s); }
    NextAccounted(s, t, CallPushAt(v, at));
  }

  lemma SureOf(s: Plain)
    requires PlainInv(s)
    ensures AllSure(s)
  {
  }

  lemma CalmMeansUnheld(s: Plain, t: Tid, v: U32, at: Ptr, w: Tid)
    requires SafeInv(s) && May(s, t, CallPushAt(v, at)) && |s.pcs| != 2 && w < |s.pcs| && w != t
    ensures Unheld(Next(s, t, CallPushAt(v, at)), w)
  {
    hide Books, Logged;
    assert Sure(s, w);
    forall u | 0 <= u < |s.pcs| && NodeOf(s.pcs[w]).Some? ensures HeldTop(s.pcs[u]) != NodeOf(s.pcs[w]) {
      assert Untroubled(s, u);
    }
  }

  // ---- the exact condition ----

  /** All continuations of `turns` that hand out harmless addresses only are faithful. */
  ghost predicate StaysFaithful(threads: nat, turns: seq<PlainTurn>) {
    forall more :: turns <= more && Runs(Start(threads), more) && Guarded(Start(threads), more, |turns|) ==>
      Faithful(After(Start(threads), more))
  }

  lemma {:induction false} GuardedWhole(threads: nat, turns: seq<PlainTurn>, more: seq<PlainTurn>)
    requires turns <= more && Runs(Start(threads), more) && Guarded(Start(threads), more, |turns|)
    requires Runs(Start(threads), turns) && Guarded(Start(threads), turns, 0)
    ensures Guarded(Start(threads), more, 0)
  {
    if |more| > |turns| {
      var n := |more| - 1;
      GuardedWhole(threads, turns, more[..n]);
    } else {
      assert more == turns;
    }
  }

  /** The exact condition: in any state reached so far without harm, handing out an address that is not allocated
      keeps the stack faithful in all that follows if and only if it is harmless. */
  lemma ReuseIsSafeExactly(threads: nat, turns: seq<PlainTurn>, t: Tid, v: U32, at: Ptr)
    requires Runs(Start(threads), turns) && Guarded(Start(threads), turns, 0)
    requires May(After(Start(threads), turns), t, CallPushAt(v, at))
    ensures StaysFaithful(threads, turns + [PlainTurn(t, CallPushAt(v, at))]) <==> Harmless(After(Start(threads), turns), at)
  {
    hide Harmless, Faithful, May;
    var m := CallPushAt(v, at);
    var longer := turns + [PlainTurn(t, m)];
    assert longer[..|turns|] == turns;
    if Harmless(After(Start(threads), turns), at) {
      forall more | longer <= more && Runs(Start(threads), more) && Guarded(Start(threads), more, |longer|)
        ensures Faithful(After(Start(threads), more))
      {
        GuardedWhole(threads, longer, more);
        GuardedIsSafe(threads, more);
        Witness(After(Start(threads), more));
      }
    } else {
      var more := HarmfulLoses(threads, turns, t, v, at);
    }
  }

  lemma Witness(s: Plain)
    requires Links(s.mem, s.head, s.chain) && Replay(s.log) == Some(Values(s.mem, s.chain))
    ensures Faithful(s)
  {
  }

  lemma StartOn(threads: nat)
    ensures On(threads, 0, [], Start(threads))
  {
  }

  /** What `On` stands for. */
  lemma OnMeans(threads: nat, turns: seq<PlainTurn>, s: Plain)
    requires On(threads, 0, turns, s)
    ensures Runs(Start(threads), turns) && Guarded(Start(threads), turns, 0) && After(Start(threads), turns) == s
  {
  }

  /** Such harm is within reach of two threads: thread 1 stops between reading that node 1 has no successor and its
      exchange; thread 0 pops that node, pushes 7 at another address, and is handed address 1 again. */
  lemma ReuseLosesAValue() returns (turns: seq<PlainTurn>)
    ensures Runs(Start(2), turns) && Guarded(Start(2), turns, 0)
    ensures var s := After(Start(2), turns); May(s, 0, CallPushAt(8, 1)) && !Harmless(s, 1)
    ensures !StaysFaithful(2, turns + [PlainTurn(0, CallPushAt(8, 1))])
  {
    hide Replay, CallsOf, Values, On, StaysFaithful;
    var s := Start(2);
    StartOn(2);
    turns, s := PushAlone(2, 0, [], s, 0, 5, 1);
    turns, s := Go(2, 0, turns, s, 1, CallPopNow);
    turns, s := Go(2, 0, turns, s, 1, Continue);
    turns, s := Go(2, 0, turns, s, 1, Continue);
    assert s.pcs[1] == PopSwap(1, NULL);
    turns, s := Go(2, 0, turns, s, 0, CallPopNow);
    turns, s := Go(2, 0, turns, s, 0, Continue);
    turns, s := Go(2, 0, turns, s, 0, Continue);
    turns, s := Go(2, 0, turns, s, 0, Continue);
    turns, s := Go(2, 0, turns, s, 0, Continue);
    turns, s := PushAlone(2, 0, turns, s, 0, 7, 2);
    assert s.pcs[1] == PopSwap(1, NULL) && s.head == 2 && s.pcs[0] == Resting && 1 !in s.mem;
    assert HeldTop(s.pcs[1]) == Some(1) && Expects(s.pcs[1]) != s.head;
    OnMeans(2, turns, s);
    ReuseIsSafeExactly(2, turns, 0, 8, 1);
  }
}

/** What the state machine keeps: who holds together, what the lock manager's state covers, and the conditions
    under which it is asked for another one. */
module GlockSafety {
  import opened Evolution
  import opened Glock

  /** Two that hold at the same time. */
  predicate Share(a: Holder, b: Holder) {
    a.state == b.state && (a.state == EX ==> a.nodeScope && b.nodeScope)
  }

  /** The lock manager's state is enough for the holder; `lax` admits those who said any state would do, and
      those who came in with them. */
  predicate Covers(s: St, h: Holder, lax: bool) {
    s == h.state || ((h.state == SH || h.state == DF) && (s == EX || (lax && s != UN)))
  }

  /** How many hold, at the head of the queue. */
  function Lead(hs: seq<Holder>): (n: nat)
    ensures n <= |hs|
    ensures forall i :: 0 <= i < n ==> hs[i].active
    ensures n < |hs| ==> !hs[n].active
  {
    if hs == [] || !hs[0].active then 0 else 1 + Lead(hs[1..])
  }

  ghost predicate Fine(s: St, held: seq<Holder>, lax: bool) {
    && (forall i, j :: 0 <= i < j < |held| ==> Share(held[i], held[j]))
    && (forall i :: 0 <= i < |held| ==> Covers(s, held[i], lax))
  }

  ghost predicate AllWait(hs: seq<Holder>) {
    forall i :: 0 <= i < |hs| ==> !hs[i].active
  }

  ghost predicate AllHold(hs: seq<Holder>) {
    forall i :: 0 <= i < |hs| ==> hs[i].active
  }

  /** Holders first, in states that go together, then waiters. */
  ghost predicate Good(s: St, hs: seq<Holder>, lax: bool) {
    AllWait(hs[Lead(hs)..]) && Fine(s, hs[..Lead(hs)], lax)
  }

  /** Any state would do for it; one that asks for exactly its state as well does not mean that. */
  predicate AnyWillDo(h: Holder) {
    h.any && !h.exact
  }

  predicate Sensible(h: Holder, lax: bool) {
    h.state != UN && (AnyWillDo(h) ==> lax && (h.state == SH || h.state == DF))
  }

  ghost predicate AllSensible(hs: seq<Holder>, lax: bool) {
    forall i :: 0 <= i < |hs| ==> Sensible(hs[i], lax)
  }

  // ----- holders, then waiters

  lemma {:induction false} LeadOf(held: seq<Holder>, waiting: seq<Holder>)
    requires AllHold(held) && AllWait(waiting)
    ensures Lead(held + waiting) == |held|
  {
    if held == [] {
      assert held + waiting == waiting;
    } else {
      assert (held + waiting)[1..] == held[1..] + waiting;
      LeadOf(held[1..], waiting);
    }
  }

  lemma Assemble(s: St, held: seq<Holder>, waiting: seq<Holder>, lax: bool)
    requires AllHold(held) && AllWait(waiting) && Fine(s, held, lax)
    ensures Good(s, held + waiting, lax) && Lead(held + waiting) == |held|
  {
    LeadOf(held, waiting);
    assert (held + waiting)[..|held|] == held;
    assert (held + waiting)[|held|..] == waiting;
  }

  lemma {:induction false} WithoutParts(held: seq<Holder>, waiting: seq<Holder>, error: bool)
    requires AllHold(held) && AllWait(waiting)
    ensures Without(held + waiting, error) == held + Without(waiting, error)
    ensures AllWait(Without(waiting, error))
    ensures forall h :: h in Without(waiting, error) ==> h in waiting
    decreases |held| + |waiting|
  {
    if held != [] {
      assert (held + waiting)[1..] == held[1..] + waiting;
      WithoutParts(held[1..], waiting, error);
    } else if waiting != [] {
      assert held + waiting == waiting;
      WithoutParts([], waiting[1..], error);
      assert [] + waiting[1..] == waiting[1..];
    }
  }

  lemma WithoutGood(s: St, hs: seq<Holder>, error: bool, lax: bool)
    requires Good(s, hs, lax) && AllSensible(hs, lax)
    ensures Good(s, Without(hs, error), lax) && AllSensible(Without(hs, error), lax)
    ensures Lead(Without(hs, error)) == Lead(hs)
  {
    var n := Lead(hs);
    var held, waiting := hs[..n], hs[n..];
    assert hs == held + waiting;
    WithoutParts(held, waiting, error);
    Assemble(s, held, Without(waiting, error), lax);
    WithoutSensible(hs, error, lax);
  }

  lemma {:induction false} WithoutSensible(hs: seq<Holder>, error: bool, lax: bool)
    requires AllSensible(hs, lax)
    ensures AllSensible(Without(hs, error), lax)
  {
    if hs != [] {
      WithoutSensible(hs[1..], error, lax);
    }
  }

  lemma {:induction false} PromoteFromGood(s: St, hs: seq<Holder>, i: nat, lax: bool)
    requires Good(s, hs, lax) && AllSensible(hs, lax) && i <= Lead(hs)
    ensures var p := PromoteFrom(s, hs, i, FirstHolder(hs)); Good(s, p, lax) && AllSensible(p, lax)
    decreases |hs| - i
  {
    if i < |hs| {
      if hs[i].active {
        PromoteFromGood(s, hs, i + 1, lax);
      } else if !MayGrant(s, FirstHolder(hs), hs[i]) {
        WithoutGood(s, hs, false, lax);
      } else {
        var h := hs[i].(active := true);
        GrantedGood(s, hs, lax);
        assert FirstHolder(hs[i := h]) == if FirstHolder(hs).None? then Some(h) else FirstHolder(hs);
        PromoteFromGood(s, hs[i := h], i + 1, lax);
      }
    }
  }

  lemma GrantedGood(s: St, hs: seq<Holder>, lax: bool)
    requires Good(s, hs, lax) && AllSensible(hs, lax) && Lead(hs) < |hs|
    requires MayGrant(s, FirstHolder(hs), hs[Lead(hs)])
    ensures var i := Lead(hs); var p := hs[i := hs[i].(active := true)];
      Good(s, p, lax) && AllSensible(p, lax) && Lead(p) == i + 1
  {
    var i := Lead(hs);
    var h := hs[i].(active := true);
    var held, waiting := hs[..i] + [h], hs[i + 1..];
    assert hs[i := h] == held + waiting;
    assert waiting == hs[i..][1..];
    JoinsFine(s, hs[..i], hs[i], lax);
    Assemble(s, held, waiting, lax);
  }

  /** One more holder, let in beside the first. */
  lemma JoinsFine(s: St, held: seq<Holder>, h: Holder, lax: bool)
    requires Fine(s, held, lax) && AllHold(held) && Sensible(h, lax) && MayGrant(s, FirstHolder(held), h)
    ensures Fine(s, held + [h.(active := true)], lax)
  {
  }

  lemma PromoteGood(s: St, hs: seq<Holder>, lax: bool)
    requires Good(s, hs, lax) && AllSensible(hs, lax)
    ensures Good(s, Promote(s, hs), lax) && AllSensible(Promote(s, hs), lax)
  {
    PromoteFromGood(s, hs, 0, lax);
  }

  /** Nobody holds, so the lock manager may change the state to anything. */
  lemma NobodyHolds(s: St, t: St, hs: seq<Holder>, lax: bool)
    requires Good(s, hs, lax) && Lead(hs) == 0
    ensures Good(t, hs, lax)
  {
  }

  // ----- the invariant of the machine

  ghost predicate Inv(g: Gl, lax: bool) {
    && !g.bug
    && Good(g.state, g.holders, lax) && AllSensible(g.holders, lax)
    && (g.demote ==> g.demoteState != EX)
    && (g.invalidating ==> g.phase == Xmote)
    && match g.phase
       case Idle => !g.demoteInProgress
       case Xmote =>
         Lead(g.holders) == 0 && g.req != g.state && g.target != g.state && (g.req == g.target || g.req == UN)
         && (g.demoteInProgress ==> g.target != EX)
       case Bottom => Lead(g.holders) == 0 && !g.demoteInProgress
  }

  /** Asking the lock manager: nobody holds, and the state is neither what is asked for nor what is wanted. */
  lemma StartKeeps(g: Gl, target: St, lax: bool)
    requires !g.bug && Good(g.state, g.holders, lax) && AllSensible(g.holders, lax) && Lead(g.holders) == 0
    requires g.state != target && g.state != g.target && (target == g.target || target == UN)
    requires (g.demote ==> g.demoteState != EX) && !g.invalidating && (g.demoteInProgress ==> g.target != EX)
    ensures Inv(StartXmote(g, target), lax) && StartXmote(g, target).phase == Xmote
  {
    WithoutGood(g.state, g.holders, false, lax);
  }

  lemma RunQueueKeeps(g: Gl, nonblock: bool, lax: bool)
    requires Inv(g, lax)
    ensures Inv(Serviced(g, nonblock), lax)
  {
    if g.phase == Idle {
      if g.demote && g.demoteState != g.state {
        if FirstHolder(g.holders).None? && !nonblock {
          StartKeeps(g.(demoteInProgress := true, target := g.demoteState), g.demoteState, lax);
        }
      } else {
        PromoteGood(g.state, g.holders, lax);
        if HeadBlocked(g.state, g.holders) {
          WithoutGood(g.state, g.holders, false, lax);
          var g1 := if g.demote then DemoteWoken(g) else g;
          var h := g.holders[0];
          StartKeeps(g1.(target := h.state, holders := if h.tries then g1.holders else Without(g1.holders, false)),
            h.state, lax);
        }
      }
    }
  }

  lemma QueuedGood(s: St, hs: seq<Holder>, h: Holder, lax: bool)
    requires Good(s, hs, lax) && AllSensible(hs, lax) && !h.active && Sensible(h, lax)
    ensures Good(s, hs + [h], lax) && AllSensible(hs + [h], lax) && Lead(hs + [h]) == Lead(hs)
  {
    var n := Lead(hs);
    assert hs + [h] == hs[..n] + (hs[n..] + [h]);
    Assemble(s, hs[..n], hs[n..] + [h], lax);
  }

  lemma ReleasedGood(s: St, hs: seq<Holder>, i: nat, lax: bool)
    requires Good(s, hs, lax) && i < Lead(hs)
    ensures var p := hs[..i] + hs[i + 1..]; Good(s, p, lax) && Lead(p) == Lead(hs) - 1
  {
    var n := Lead(hs);
    var held := hs[..i] + hs[i + 1..n];
    assert hs[..i] + hs[i + 1..] == held + hs[n..];
    assert forall k :: 0 <= k < |held| ==> held[k] == hs[..n][if k < i then k else k + 1];
    Assemble(s, held, hs[n..], lax);
  }

  lemma WithdrawnGood(s: St, hs: seq<Holder>, i: nat, lax: bool)
    requires Good(s, hs, lax) && Lead(hs) <= i < |hs|
    ensures var p := hs[..i] + hs[i + 1..]; Good(s, p, lax) && Lead(p) == Lead(hs)
  {
    var n := Lead(hs);
    var all := hs[n..];
    var waiting := all[..i - n] + all[i - n + 1..];
    DropFromTail(hs, n, i);
    FewerWait(all, i - n);
    Assemble(s, hs[..n], waiting, lax);
  }

  lemma DropFromTail(hs: seq<Holder>, n: nat, i: nat)
    requires n <= i < |hs|
    ensures hs[..i] + hs[i + 1..] == hs[..n] + (hs[n..][..i - n] + hs[n..][i - n + 1..])
  {
    assert hs[..i] == hs[..n] + hs[n..][..i - n];
    assert hs[i + 1..] == hs[n..][i - n + 1..];
  }

  lemma FewerWait(all: seq<Holder>, k: nat)
    requires AllWait(all) && k < |all|
    ensures AllWait(all[..k] + all[k + 1..])
  {
  }

  lemma DequeuedGood(s: St, hs: seq<Holder>, i: nat, lax: bool)
    requires Good(s, hs, lax) && AllSensible(hs, lax) && i < |hs|
    ensures var p := hs[..i] + hs[i + 1..];
      Good(s, p, lax) && AllSensible(p, lax) && Lead(p) == if i < Lead(hs) then Lead(hs) - 1 else Lead(hs)
  {
    if i < Lead(hs) {
      ReleasedGood(s, hs, i, lax);
    } else {
      WithdrawnGood(s, hs, i, lax);
    }
  }

  lemma MovedBackGood(s: St, hs: seq<Holder>, i: nat, lax: bool)
    requires Good(s, hs, lax) && AllSensible(hs, lax) && Lead(hs) == 0 && i < |hs|
    ensures Good(s, MovedBack(hs, i), lax) && AllSensible(MovedBack(hs, i), lax) && Lead(MovedBack(hs, i)) == 0
  {
    DequeuedGood(s, hs, i, lax);
    assert hs[i] == hs[0..][i];
    QueuedGood(s, hs[..i] + hs[i + 1..], hs[i], lax);
  }

  // ----- the lock manager answers

  /** A conversion to a weaker state, and an unlock, cannot fail. */
  predicate CanBe(g: Gl, r: Reply) {
    r == Success || (g.req != UN && g.state != EX)
  }

  lemma FinishKeeps(g: Gl, r: Reply, lax: bool)
    requires Inv(g, lax) && g.phase == Xmote && !g.invalidating && CanBe(g, r)
    ensures Inv(FinishXmote(g, r), lax)
  {
    var g1 := Told(g, r);
    NobodyHolds(g.state, g1.state, g.holders, lax);
    if g1.state != g1.target {
      MissedKeeps(g1, r, lax);
    }
  }

  lemma MissedKeeps(g: Gl, r: Reply, lax: bool)
    requires !g.bug && Good(g.state, g.holders, lax) && AllSensible(g.holders, lax) && Lead(g.holders) == 0
    requires g.state != g.target && g.state != EX && g.phase == Xmote
    requires (g.demote ==> g.demoteState != EX) && !g.invalidating && (g.demoteInProgress ==> g.target != EX)
    ensures Inv(Missed(g, r), lax)
  {
    var w := FirstWaiter(g.holders);
    if w < |g.holders| && !g.demoteInProgress && r == Canceled {
      CanceledKeeps(g, w, lax);
    } else if w < |g.holders| && !g.demoteInProgress && (r == Error || g.holders[w].tries) {
      WithoutGood(g.state, g.holders, r == Error, lax);
    } else {
      StartKeeps(g, if g.state == UN then g.target else UN, lax);
    }
  }

  lemma CanceledKeeps(g: Gl, w: nat, lax: bool)
    requires !g.bug && Good(g.state, g.holders, lax) && AllSensible(g.holders, lax) && Lead(g.holders) == 0
    requires (g.demote ==> g.demoteState != EX) && !g.invalidating && !g.demoteInProgress && w < |g.holders|
    ensures var hs := MovedBack(g.holders, w);
      && FirstWaiter(hs) == 0
      && (!HeadBlocked(g.state, hs)
        ==> Inv(g.(holders := Promote(g.state, hs), target := hs[0].state, phase := Idle), lax))
      && (HeadBlocked(g.state, hs) ==> Inv(StartXmote(g.(holders := hs, target := hs[0].state), hs[0].state), lax))
  {
    var hs := MovedBack(g.holders, w);
    MovedBackGood(g.state, g.holders, w, lax);
    PromoteGood(g.state, hs, lax);
    if HeadBlocked(g.state, hs) {
      StartKeeps(g.(holders := hs, target := hs[0].state), hs[0].state, lax);
    }
  }

  lemma BottomKeeps(g: Gl, failed: bool, error: bool, lax: bool)
    requires Inv(g, lax) && g.phase == Bottom
    ensures Inv(FinishBottom(g, failed, error), lax)
  {
    WithoutGood(g.state, g.holders, error, lax);
    PromoteGood(g.state, g.holders, lax);
  }

  // ----- runs

  datatype Event = Enqueue(h: Holder)
                 | Dequeue(i: nat)
                 | Call(wish: St, delayed: bool)
                 | Work(delayOver: bool)
                 | Invalidated
                 | Answer(r: Reply)
                 | BottomDone(failed: bool, error: bool)

  predicate Possible(g: Gl, e: Event, lax: bool) {
    match e
    case Enqueue(h) => !h.active && Sensible(h, lax)
    case Dequeue(i) => i < |g.holders|
    case Call(wish, _) => wish != EX
    case Work(_) => true
    case Invalidated => g.invalidating
    case Answer(r) => g.phase == Xmote && !g.invalidating && CanBe(g, r)
    case BottomDone(_, _) => g.phase == Bottom
  }

  function Next(g: Gl, e: Event): Gl
    requires e.Dequeue? ==> e.i < |g.holders|
  {
    match e
    case Enqueue(h) => Queued(g, h)
    case Dequeue(i) => Dequeued(g, i)
    case Call(wish, delayed) => Called(g, wish, delayed)
    case Work(delayOver) => Worked(g, delayOver)
    case Invalidated => g.(invalidating := false)
    case Answer(r) => FinishXmote(g, r)
    case BottomDone(failed, error) => FinishBottom(g, failed, error)
  }

  ghost predicate IsRun(gs: seq<Gl>, es: seq<Event>, lax: bool) {
    && |gs| == |es| + 1 && gs[0] == New(gs[0].hasInval)
    && forall i :: 0 <= i < |es| ==> Possible(gs[i], es[i], lax) && gs[i + 1] == Next(gs[i], es[i])
  }

  lemma CallKeeps(g: Gl, wish: St, delayed: bool, lax: bool)
    requires Inv(g, lax) && wish != EX
    ensures Inv(Called(g, wish, delayed), lax)
  {
  }

  lemma DequeueKeeps(g: Gl, i: nat, lax: bool)
    requires Inv(g, lax) && i < |g.holders|
    ensures Inv(Dequeued(g, i), lax)
  {
    DequeuedGood(g.state, g.holders, i, lax);
  }

  lemma StepKeepsInv(g: Gl, e: Event, lax: bool)
    requires Inv(g, lax) && Possible(g, e, lax)
    ensures Inv(Next(g, e), lax)
  {
    match e
    case Enqueue(h) =>
      QueuedGood(g.state, g.holders, h, lax);
      RunQueueKeeps(if FailsAtOnce(g, h) then g else g.(holders := g.holders + [h]), true, lax);
    case Dequeue(i) => DequeueKeeps(g, i, lax);
    case Call(wish, delayed) => CallKeeps(g, wish, delayed, lax);
    case Work(delayOver) =>
      RunQueueKeeps(if g.pendingDemote && g.state != UN && g.demoteState != EX && delayOver
                    then g.(pendingDemote := false, demote := true) else g, false, lax);
    case Invalidated =>
    case Answer(r) => FinishKeeps(g, r, lax);
    case BottomDone(failed, error) => BottomKeeps(g, failed, error, lax);
  }

  lemma {:induction false} RunInv(gs: seq<Gl>, es: seq<Event>, n: nat, lax: bool)
    requires IsRun(gs, es, lax) && n <= |es|
    ensures Inv(gs[n], lax)
  {
    if n > 0 {
      RunInv(gs, es, n - 1, lax);
      assert Possible(gs[n - 1], es[n - 1], lax) && gs[n] == Next(gs[n - 1], es[n - 1]);
      StepKeepsInv(gs[n - 1], es[n - 1], lax);
    }
  }

  /** In every run the holders stand at the head of the queue, in states that go together and that the lock
      manager's state covers; none holds while another state is asked for. */
  lemma HoldersStandTogether(gs: seq<Gl>, es: seq<Event>, n: nat, lax: bool)
    requires IsRun(gs, es, lax) && n <= |es|
    ensures var hs := gs[n].holders;
      && (forall i, j :: 0 <= i < j < |hs| && hs[j].active ==> hs[i].active && Share(hs[i], hs[j]))
      && (forall i :: 0 <= i < |hs| && hs[i].active ==> Covers(gs[n].state, hs[i], lax) && gs[n].phase == Idle)
  {
    RunInv(gs, es, n, lax);
    var hs := gs[n].holders;
    forall i | 0 <= i < |hs| && hs[i].active ensures i < Lead(hs) && hs[i] == hs[..Lead(hs)][i] {
    }
  }

  /** None of the state machine's own checks ever fails: whenever another state is asked for, it differs from
      the present one, and so does the one wanted in the end. */
  lemma NoCheckFails(gs: seq<Gl>, es: seq<Event>, n: nat, lax: bool)
    requires IsRun(gs, es, lax) && n <= |es|
    ensures !gs[n].bug
    ensures gs[n].phase == Xmote ==> gs[n].req != gs[n].state && gs[n].target != gs[n].state && Lead(gs[n].holders) == 0
  {
    RunInv(gs, es, n, lax);
  }

  // ----- a holder that any state would do for

  /** Everyone who holds is covered in the strict sense exactly when the one at the head is: that is, unless it
      came in only because any state would do for it. */
  lemma StrictlyCoveredExactly(gs: seq<Gl>, es: seq<Event>, n: nat, lax: bool)
    requires IsRun(gs, es, lax) && n <= |es| && gs[n].holders != [] && gs[n].holders[0].active
    ensures (forall i :: 0 <= i < |gs[n].holders| && gs[n].holders[i].active ==>
      Covers(gs[n].state, gs[n].holders[i], false))
      <==> gs[n].state == gs[n].holders[0].state || gs[n].state == EX
  {
    HoldersStandTogether(gs, es, n, lax);
  }

  /** Those who need their state have it, or a stronger one. */
  ghost predicate OthersCovered(g: Gl) {
    forall i :: 0 <= i < |g.holders| && g.holders[i].active && !AnyWillDo(g.holders[i]) ==>
      Covers(g.state, g.holders[i], false)
  }

  /** ... in every run in which `h`, possibly many times, is the only one asked for that any state would do for. */
  ghost predicate AlwaysCovered(h: Holder) {
    forall gs, es :: IsRun(gs, es, true) && OnlyAny(es, h) ==> OthersCovered(gs[|es|])
  }

  ghost predicate OnlyAny(es: seq<Event>, h: Holder) {
    forall e :: e in es && e.Enqueue? && AnyWillDo(e.h) ==> e.h == h
  }

  /** Which requests let others in: exactly those that any state would do for. */
  lemma RequestsCoverExactly(h: Holder)
    requires !h.active && Sensible(h, true)
    ensures AlwaysCovered(h) <==> !AnyWillDo(h)
  {
    if AnyWillDo(h) {
      AnyLetsOthersIn(h);
      var gs :| IsRun(gs, LetIn(h), true) && !OthersCovered(gs[7]);
    } else {
      forall gs, es | IsRun(gs, es, true) && OnlyAny(es, h) ensures OthersCovered(gs[|es|]) {
        forall i | 0 <= i < |es| ensures Possible(gs[i], es[i], false) {
          assert Possible(gs[i], es[i], true) && es[i] in es;
        }
        HoldersStandTogether(gs, es, |es|, false);
      }
    }
  }

  const PLAIN := Holder(0, DF, false, false, false, false, false, false)

  /** A plain holder of the other of the two states that go together with themselves only. */
  function First(h: Holder): Holder {
    PLAIN.(state := if h.state == SH then DF else SH)
  }

  /** A plain holder of the same state. */
  function Later(h: Holder): Holder {
    PLAIN.(id := 1, state := h.state)
  }

  function LetIn(h: Holder): seq<Event> {
    Opening(h) + [Enqueue(h)] + [Enqueue(Later(h))]
  }

  function Opening(h: Holder): seq<Event> {
    [Enqueue(First(h)), Work(true), Answer(Success), BottomDone(false, false), Dequeue(0)]
  }

  const G0 := New(false)

  function G1(h: Holder): Gl {
    var s := First(h).state;
    G0.(target := s, req := s, phase := Xmote, holders := [First(h)])
  }

  function G3(h: Holder): Gl {
    G1(h).(state := First(h).state, phase := Bottom)
  }

  function G4(h: Holder): Gl {
    G3(h).(phase := Idle, holders := [First(h).(active := true)])
  }

  function G5(h: Holder): Gl {
    G4(h).(holders := [])
  }

  function G6(h: Holder): Gl {
    G5(h).(holders := [h.(active := true)])
  }

  function G7(h: Holder): Gl {
    G5(h).(holders := [h.(active := true), Later(h).(active := true)])
  }

  ghost predicate LetsIn(h: Holder) {
    !h.active && AnyWillDo(h) && (h.state == SH || h.state == DF)
  }

  /** Behind it in the queue, another one is let in that does need the state, and has not got it: the glock is in the
      other one of the shared and the deferred state. */
  lemma AnyLetsOthersIn(h: Holder)
    requires LetsIn(h)
    ensures exists gs: seq<Gl> :: IsRun(gs, LetIn(h), true) && !OthersCovered(gs[7])
  {
    LetInRun(h);
    assert G7(h).holders[1] == Later(h).(active := true);
    assert !OthersCovered(G7(h));
  }

  lemma LetInRun(h: Holder)
    requires LetsIn(h)
    ensures IsRun(Opened(h) + [G6(h)] + [G7(h)], LetIn(h), true)
  {
    OpeningRun(h);
    LastSteps(h);
    RunGrows(Opened(h), Opening(h), Enqueue(h), G6(h), true);
    RunGrows(Opened(h) + [G6(h)], Opening(h) + [Enqueue(h)], Enqueue(Later(h)), G7(h), true);
  }

  function Opened(h: Holder): seq<Gl> {
    [G0, G1(h), G1(h), G3(h), G4(h), G5(h)]
  }

  lemma OpeningRun(h: Holder)
    requires LetsIn(h)
    ensures IsRun(Opened(h), Opening(h), true)
  {
    FirstSteps(h);
    MiddleSteps(h);
  }

  lemma RunGrows(gs: seq<Gl>, es: seq<Event>, e: Event, d: Gl, lax: bool)
    requires IsRun(gs, es, lax) && Possible(gs[|es|], e, lax) && d == Next(gs[|es|], e)
    ensures IsRun(gs + [d], es + [e], lax)
  {
  }

  lemma FirstSteps(h: Holder)
    requires LetsIn(h)
    ensures G1(h) == Next(G0, Enqueue(First(h))) && G1(h) == Next(G1(h), Work(true))
    ensures G3(h) == Next(G1(h), Answer(Success))
  {
    assert [] + [First(h)] == [First(h)];
    assert Without([First(h)], false) == [First(h)];
  }

  lemma MiddleSteps(h: Holder)
    requires LetsIn(h)
    ensures G4(h) == Next(G3(h), BottomDone(false, false)) && G5(h) == Next(G4(h), Dequeue(0))
  {
    var held := First(h).(active := true);
    assert PromoteFrom(First(h).state, [First(h)], 0, None) == PromoteFrom(First(h).state, [held], 1, Some(held));
  }

  lemma LastSteps(h: Holder)
    requires LetsIn(h)
    ensures G6(h) == Next(G5(h), Enqueue(h)) && G7(h) == Next(G6(h), Enqueue(Later(h)))
  {
    var s, a, b := First(h).state, h, Later(h);
    var a1, b1 := a.(active := true), b.(active := true);
    assert [] + [a] == [a] && [a][0 := a1] == [a1];
    assert PromoteFrom(s, [a], 0, None) == PromoteFrom(s, [a1], 1, Some(a1)) == [a1];
    assert [a1] + [b] == [a1, b] && [a1, b][1 := b1] == [a1, b1];
    assert PromoteFrom(s, [a1, b], 0, Some(a1)) == PromoteFrom(s, [a1, b], 1, Some(a1))
        == PromoteFrom(s, [a1, b1], 2, Some(a1)) == [a1, b1];
  }
}

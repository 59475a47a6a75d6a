/** What becomes of a wish, of a request and of those in the queue: said of each step of every run of the glock. */
module GlockLaws {
  import opened Evolution
  import opened Glock
  import opened GlockSafety

  ghost predicate At(gs: seq<Gl>, es: seq<Event>, n: nat, lax: bool, g: Gl, d: Gl) {
    IsRun(gs, es, lax) && n < |es| && g == gs[n] && d == gs[n + 1]
  }

  lemma Facts(gs: seq<Gl>, es: seq<Event>, n: nat, lax: bool, g: Gl, d: Gl)
    requires At(gs, es, n, lax, g, d)
    ensures Possible(g, es[n], lax) && d == Next(g, es[n]) && Inv(g, lax) && Inv(d, lax)
  {
    RunInv(gs, es, n, lax);
    RunInv(gs, es, n + 1, lax);
  }

  // ----- wishes to demote

  /** A demotion under way goes where the wish goes, or a wish to unlock has come in since. */
  predicate Pursued(g: Gl) {
    g.demoteInProgress ==> g.demote && g.demoteState != EX && (g.target == g.demoteState || g.demoteState == UN)
  }

  /** Neither the state nor any wish changes. */
  predicate SameWish(g: Gl, d: Gl) {
    && d.state == g.state && d.demote == g.demote && d.demoteState == g.demoteState
    && d.pendingDemote == g.pendingDemote && d.demoteInProgress == g.demoteInProgress && d.hasInval == g.hasInval
  }

  lemma StartEffect(g: Gl, t: St)
    ensures var d := StartXmote(g, t);
      && SameWish(g, d) && d.phase == Xmote && d.target == g.target
      && (!g.invalidating || !((t == UN || t == DF) && g.hasInval) ==> d.req == t)
      && d.invalidating == (g.invalidating || ((t == UN || t == DF) && g.hasInval))
      && (d.holders == g.holders || d.holders == Without(g.holders, false))
  {
  }

  lemma AdvancedEffect(g: Gl)
    ensures var d := Advanced(g); SameWish(g, d) && (d.phase == g.phase || d.phase == Xmote)
  {
    if HeadBlocked(g.state, g.holders) {
      var h := g.holders[0];
      StartEffect(g.(target := h.state, holders := if h.tries then g.holders else Without(g.holders, false)), h.state);
    }
  }

  lemma MissedEffect(g: Gl, r: Reply)
    ensures var d := Missed(g, r);
      && SameWish(g, d)
      && (g.demoteInProgress ==> d.target == g.target && (d.bug || d.phase == Xmote))
      && (g.demoteInProgress && !d.bug && !g.invalidating ==> d.req == if g.state == UN then g.target else UN)
  {
    var w := FirstWaiter(g.holders);
    if w < |g.holders| && !g.demoteInProgress && r == Canceled {
      assert Missed(g, r) == NextInLine(g, w);
      NextEffect(g, w);
    } else if w < |g.holders| && !g.demoteInProgress && (r == Error || g.holders[w].tries) {
      assert Missed(g, r) == g.(target := g.state, holders := Without(g.holders, r == Error), phase := Idle);
    } else if g.state == EX {
      assert Missed(g, r) == g.(bug := true);
    } else {
      assert Missed(g, r) == StartXmote(g, if g.state == UN then g.target else UN);
      StartEffect(g, if g.state == UN then g.target else UN);
    }
  }

  lemma NextEffect(g: Gl, w: nat)
    requires w < |g.holders| && !g.holders[w].active
    ensures SameWish(g, NextInLine(g, w))
  {
    var hs := MovedBack(g.holders, w);
    assert hs[|hs| - 1] == g.holders[w];
    var first := hs[FirstWaiter(hs)];
    StartEffect(g.(holders := hs, target := first.state), first.state);
  }

  /** What the machine starts from when a holder is queued or the work function runs. */
  function Before(g: Gl, e: Event): Gl
    requires e.Enqueue? || e.Work?
  {
    match e
    case Enqueue(h) => if FailsAtOnce(g, h) then g else g.(holders := g.holders + [h])
    case Work(delayOver) =>
      if g.pendingDemote && g.state != UN && g.demoteState != EX && delayOver
      then g.(pendingDemote := false, demote := true) else g
  }

  /** The wishes of `g` are still there, or have been met. */
  predicate WishKept(g: Gl, d: Gl) {
    && (g.demote ==> d.demote || d.state == g.demoteState || d.state == UN)
    && (g.pendingDemote ==> d.pendingDemote || d.demote || d.state == g.demoteState)
    && (d.demoteState == g.demoteState || (d.demoteState == EX && !d.demote && (g.demote || g.pendingDemote)))
  }

  lemma ServicedWish(g: Gl, nonblock: bool)
    requires Pursued(g) && (g.phase == Idle ==> !g.demoteInProgress) && (g.demote ==> g.demoteState != EX)
    ensures var d := Serviced(g, nonblock);
      && Pursued(d) && d.state == g.state && d.pendingDemote == g.pendingDemote
      && (if d.demote then d.demoteState == g.demoteState && g.demote
          else g.demote ==> g.demoteState == g.state && d.demoteState == EX)
      && (!g.demote ==> !d.demote && d.demoteState == g.demoteState)
  {
    if g.phase == Idle && g.demote && g.demoteState != g.state {
      StartEffect(g.(demoteInProgress := true, bug := g.bug || g.demoteState == EX, target := g.demoteState),
                  g.demoteState);
    } else if g.phase == Idle {
      AdvancedEffect(if g.demote then DemoteWoken(g) else g);
    }
  }

  lemma AnswerWish(g: Gl, r: Reply)
    requires Pursued(g) && g.phase == Xmote && (g.demote ==> g.demoteState != EX)
    ensures var d := FinishXmote(g, r);
      && Pursued(d) && d.state == (if r == Success then g.req else g.state) && d.pendingDemote == g.pendingDemote
      && (if g.demote && !d.demote then (d.state == g.demoteState || d.state == UN) && d.demoteState == EX
          else d.demote == g.demote && d.demoteState == g.demoteState)
  {
    if Told(g, r).state != Told(g, r).target {
      MissedEffect(Told(g, r), r);
    }
  }

  /** Over every run, whatever else happens, a wish to demote stays until the state suits it: it is the state wished
      for, or the lock is given up altogether. */
  lemma {:induction false} RunPursued(gs: seq<Gl>, es: seq<Event>, n: nat, lax: bool)
    requires IsRun(gs, es, lax) && n <= |es|
    ensures Pursued(gs[n])
  {
    if n > 0 {
      RunPursued(gs, es, n - 1, lax);
      Facts(gs, es, n - 1, lax, gs[n - 1], gs[n]);
      StepPursued(gs[n - 1], es[n - 1], lax);
    }
  }

  lemma StepPursued(g: Gl, e: Event, lax: bool)
    requires Pursued(g) && Inv(g, lax) && Possible(g, e, lax)
    ensures Pursued(Next(g, e)) && (!e.Call? && !e.Dequeue? ==> WishKept(g, Next(g, e)))
  {
    match e
    case Enqueue(h) => ServicedWish(Before(g, e), true);
    case Work(delayOver) => ServicedWish(Before(g, e), false);
    case Answer(r) => AnswerWish(g, r);
    case _ =>
  }

  lemma WishesAreKept(gs: seq<Gl>, es: seq<Event>, n: nat, lax: bool, g: Gl, d: Gl)
    requires At(gs, es, n, lax, g, d) && !es[n].Call? && !es[n].Dequeue?
    ensures WishKept(g, d)
  {
    Facts(gs, es, n, lax, g, d);
    RunPursued(gs, es, n, lax);
    StepPursued(g, es[n], lax);
  }

  /** A wish is written down, for now or for later; two different ones can only both be met by giving the lock up. */
  lemma WishesAreHeard(gs: seq<Gl>, es: seq<Event>, n: nat, lax: bool, g: Gl, d: Gl)
    requires At(gs, es, n, lax, g, d) && es[n].Call?
    ensures if es[n].delayed then d.pendingDemote && d.demote == g.demote
            else d.demote && d.pendingDemote == g.pendingDemote
    ensures d.demoteState == if g.demoteState == EX || g.demoteState == es[n].wish then es[n].wish else UN
    ensures d.holders == g.holders && d.state == g.state && d.phase == g.phase && d.target == g.target
  {
    Facts(gs, es, n, lax, g, d);
  }

  /** A wish to unlock that comes in during a demotion to something else is not forgotten: the lock manager is asked
      again. */
  lemma UnlockIsAskedFor(gs: seq<Gl>, es: seq<Event>, n: nat, lax: bool, g: Gl, d: Gl)
    requires At(gs, es, n, lax, g, d) && es[n].Answer? && g.demoteInProgress && g.demoteState == UN
    ensures d.state == UN || (d.phase == Xmote && d.req == UN && d.target == UN && d.demoteInProgress)
  {
    Facts(gs, es, n, lax, g, d);
    AnswerMeansUnlock(g, es[n].r);
  }

  lemma AnswerMeansUnlock(g: Gl, r: Reply)
    requires g.demoteInProgress && g.demoteState == UN && !g.invalidating
    ensures var d := FinishXmote(g, r);
      d.state == UN || d.bug || (d.phase == Xmote && d.req == UN && d.target == UN && d.demoteInProgress)
  {
    if Told(g, r).state != Told(g, r).target {
      MissedEffect(Told(g, r), r);
    }
  }

  /** Letting go of a lock that must not be cached is a wish to unlock. */
  lemma LettingGo(gs: seq<Gl>, es: seq<Event>, n: nat, lax: bool, g: Gl, d: Gl)
    requires At(gs, es, n, lax, g, d) && es[n].Dequeue?
    ensures d.holders == g.holders[..es[n].i] + g.holders[es[n].i + 1..] && d.state == g.state && d.phase == g.phase
    ensures if g.holders[es[n].i].noCache then d.demote && d.demoteState == UN
            else d.demote == g.demote && d.demoteState == g.demoteState
  {
    Facts(gs, es, n, lax, g, d);
  }

  // ----- the state, and what is asked of the lock manager

  lemma StateIsTheAnswer(gs: seq<Gl>, es: seq<Event>, n: nat, lax: bool, g: Gl, d: Gl)
    requires At(gs, es, n, lax, g, d)
    ensures d.state == if es[n] == Answer(Success) then g.req else g.state
  {
    Facts(gs, es, n, lax, g, d);
    StepState(g, es[n], lax);
  }

  lemma StepState(g: Gl, e: Event, lax: bool)
    requires Possible(g, e, lax)
    ensures Next(g, e).state == if e == Answer(Success) then g.req else g.state
  {
    match e
    case Enqueue(h) => ServicedState(Before(g, e), true);
    case Work(_) => ServicedState(Before(g, e), false);
    case Answer(r) => AnswerState(g, r);
    case _ =>
  }

  lemma ServicedState(g: Gl, nonblock: bool)
    ensures Serviced(g, nonblock).state == g.state
  {
    if g.phase == Idle {
      var b := g.(bug := g.bug || g.demoteInProgress);
      if g.demote && g.demoteState != g.state {
        StartEffect(b.(demoteInProgress := true, bug := b.bug || b.demoteState == EX, target := b.demoteState),
                    b.demoteState);
      } else {
        AdvancedEffect(if g.demote then DemoteWoken(b) else b);
      }
    }
  }

  lemma AnswerState(g: Gl, r: Reply)
    ensures FinishXmote(g, r).state == if r == Success then g.req else g.state
  {
    MissedEffect(Told(g, r), r);
  }

  /** A request of the lock manager is begun for the wish, or for the head of the queue: for the state wished or
      wanted, and what may be cached is invalidated before the lock is given up or deferred. */
  lemma AskedIsWanted(gs: seq<Gl>, es: seq<Event>, n: nat, lax: bool, g: Gl, d: Gl)
    requires At(gs, es, n, lax, g, d) && g.phase != Xmote && d.phase == Xmote
    ensures AsksWhatIsWanted(d, if g.holders == [] && es[n].Enqueue? then [es[n].h] else g.holders)
    ensures d.invalidating == (g.hasInval && (d.req == UN || d.req == DF))
  {
    Facts(gs, es, n, lax, g, d);
    StepAsks(g, es[n], lax);
  }

  lemma StepAsks(g: Gl, e: Event, lax: bool)
    requires Inv(g, lax) && Possible(g, e, lax) && g.phase != Xmote
    ensures var d := Next(g, e);
      d.phase == Xmote ==>
        && AsksWhatIsWanted(d, if g.holders == [] && e.Enqueue? then [e.h] else g.holders)
        && d.invalidating == (g.hasInval && (d.req == UN || d.req == DF))
  {
    match e
    case Enqueue(h) => ServicedAsks(Before(g, e), true);
    case Work(_) => ServicedAsks(Before(g, e), false);
    case _ =>
  }

  /** `q` is the queue before the machine runs. */
  predicate AsksWhatIsWanted(d: Gl, q: seq<Holder>) {
    && d.req == d.target
    && if d.demoteInProgress then d.demote && d.target == d.demoteState
       else q != [] && !q[0].active && d.target == q[0].state
  }

  lemma ServicedAsks(g: Gl, nonblock: bool)
    requires g.phase != Xmote && (g.phase == Idle ==> !g.demoteInProgress) && !g.invalidating
    ensures var d := Serviced(g, nonblock);
      d.phase == Xmote ==>
        AsksWhatIsWanted(d, g.holders) && d.invalidating == (g.hasInval && (d.req == UN || d.req == DF))
  {
    if g.phase == Idle && g.demote && g.demoteState != g.state {
      StartEffect(g.(demoteInProgress := true, bug := g.bug || g.demoteState == EX, target := g.demoteState),
                  g.demoteState);
    } else if g.phase == Idle {
      AdvancedAsks(if g.demote then DemoteWoken(g) else g);
    }
  }

  lemma AdvancedAsks(g: Gl)
    requires g.phase == Idle && !g.demoteInProgress && !g.invalidating
    ensures var d := Advanced(g);
      d.phase == Xmote ==>
        AsksWhatIsWanted(d, g.holders) && d.invalidating == (g.hasInval && (d.req == UN || d.req == DF))
  {
    if HeadBlocked(g.state, g.holders) {
      var h := g.holders[0];
      StartEffect(g.(target := h.state, holders := if h.tries then g.holders else Without(g.holders, false)), h.state);
    }
  }

  // ----- those in the queue

  /** `x` is in the queue, waiting or holding. */
  ghost predicate Stays(hs: seq<Holder>, x: Holder) {
    x in hs || x.(active := true) in hs
  }

  /** Who waits and does not merely try stays, and so does who holds; and nobody else gets in. */
  ghost predicate NobodyForgotten(p: seq<Holder>, q: seq<Holder>) {
    && (forall x :: x in p && (x.active || !x.tries) ==> Stays(q, x))
    && (forall y :: y in q ==> y in p || (y.active && y.(active := false) in p))
  }

  lemma ForgottenTrans(p: seq<Holder>, q: seq<Holder>, r: seq<Holder>)
    requires NobodyForgotten(p, q) && NobodyForgotten(q, r)
    ensures NobodyForgotten(p, r)
  {
    forall x | x in p && (x.active || !x.tries) ensures Stays(r, x) {
      var y := if x in q then x else x.(active := true);
      assert Stays(r, y);
    }
  }

  lemma {:induction false} WithoutForgets(hs: seq<Holder>)
    ensures NobodyForgotten(hs, Without(hs, false))
  {
    if hs != [] {
      WithoutForgets(hs[1..]);
      assert forall x :: x in hs <==> x == hs[0] || x in hs[1..];
    }
  }

  lemma {:induction false} PromoteForgets(s: St, hs: seq<Holder>, i: nat, current: Option<Holder>)
    ensures NobodyForgotten(hs, PromoteFrom(s, hs, i, current))
    decreases |hs| - i
  {
    if i < |hs| {
      if hs[i].active {
        PromoteForgets(s, hs, i + 1, current);
      } else if !MayGrant(s, current, hs[i]) {
        WithoutForgets(hs);
      } else {
        var h := hs[i].(active := true);
        var next := hs[i := h];
        ActivatedStays(hs, i);
        PromoteForgets(s, next, i + 1, if current.None? then Some(h) else current);
        ForgottenTrans(hs, next, PromoteFrom(s, hs, i, current));
      }
    }
  }

  lemma ActivatedStays(hs: seq<Holder>, i: nat)
    requires i < |hs| && !hs[i].active
    ensures NobodyForgotten(hs, hs[i := hs[i].(active := true)])
  {
    var h := hs[i].(active := true);
    var next := hs[i := h];
    assert next[i] == h;
    forall x | x in hs ensures Stays(next, x) {
      var k :| 0 <= k < |hs| && hs[k] == x;
      assert next[k] == if k == i then h else x;
    }
    forall y | y in next ensures y in hs || (y.active && y.(active := false) in hs) {
      var k :| 0 <= k < |next| && next[k] == y;
      assert k == i ==> y.(active := false) == hs[i];
    }
  }

  lemma StartForgets(g: Gl, t: St)
    ensures NobodyForgotten(g.holders, StartXmote(g, t).holders)
  {
    WithoutForgets(g.holders);
  }

  lemma ServicedForgets(g: Gl, nonblock: bool)
    ensures NobodyForgotten(g.holders, Serviced(g, nonblock).holders)
  {
    if g.phase == Idle && g.demote && g.demoteState != g.state {
      StartForgets(g.(demoteInProgress := true, bug := g.bug || g.demoteInProgress || g.demoteState == EX,
                      target := g.demoteState), g.demoteState);
    } else if g.phase == Idle {
      AdvancedForgets((if g.demote then DemoteWoken(g) else g).(bug := g.bug || g.demoteInProgress));
    }
  }

  lemma AdvancedForgets(g: Gl)
    ensures NobodyForgotten(g.holders, Advanced(g).holders)
  {
    PromoteForgets(g.state, g.holders, 0, FirstHolder(g.holders));
    if HeadBlocked(g.state, g.holders) {
      var h := g.holders[0];
      var kept := if h.tries then g.holders else Without(g.holders, false);
      WithoutForgets(g.holders);
      StartForgets(g.(target := h.state, holders := kept), h.state);
      ForgottenTrans(g.holders, kept, Advanced(g).holders);
    }
  }

  lemma AnswerForgets(g: Gl, r: Reply)
    requires r != Error
    ensures NobodyForgotten(g.holders, FinishXmote(g, r).holders)
  {
    var g1 := Told(g, r);
    if g1.state != g1.target {
      MissedForgets(g1, r);
    }
  }

  lemma MissedForgets(g: Gl, r: Reply)
    requires r != Error
    ensures NobodyForgotten(g.holders, Missed(g, r).holders)
  {
    var w := FirstWaiter(g.holders);
    WithoutForgets(g.holders);
    if w < |g.holders| && !g.demoteInProgress && r == Canceled {
      assert Missed(g, r) == NextInLine(g, w);
      NextForgets(g, w);
    } else {
      StartForgets(g, if g.state == UN then g.target else UN);
    }
  }

  lemma NextForgets(g: Gl, w: nat)
    requires w < |g.holders| && !g.holders[w].active
    ensures NobodyForgotten(g.holders, NextInLine(g, w).holders)
  {
    var hs := MovedBack(g.holders, w);
    assert hs[|hs| - 1] == g.holders[w];
    assert g.holders == g.holders[..w] + [g.holders[w]] + g.holders[w + 1..];
    assert forall x :: x in hs <==> x in g.holders;
    var first := hs[FirstWaiter(hs)];
    PromoteForgets(g.state, hs, 0, FirstHolder(hs));
    StartForgets(g.(holders := hs, target := first.state), first.state);
    ForgottenTrans(g.holders, hs, NextInLine(g, w).holders);
  }

  /** In every step of every run but those in which somebody leaves or the lock manager fails, whoever holds or really
      waits stays in the queue, and a new holder that really waits gets into it. */
  lemma NobodyIsForgotten(gs: seq<Gl>, es: seq<Event>, n: nat, lax: bool, g: Gl, d: Gl)
    requires At(gs, es, n, lax, g, d) && !es[n].Dequeue?
    requires es[n] != Answer(Error) && !(es[n].BottomDone? && es[n].failed && es[n].error)
    ensures NobodyForgotten(if es[n].Enqueue? then g.holders + [es[n].h] else g.holders, d.holders)
  {
    Facts(gs, es, n, lax, g, d);
    match es[n]
    case Enqueue(h) => EnqueueForgets(g, h);
    case Work(_) => ServicedForgets(Before(g, es[n]), false);
    case Answer(r) => AnswerForgets(g, r);
    case BottomDone(_, _) =>
      WithoutForgets(g.holders);
      PromoteForgets(g.state, g.holders, 0, FirstHolder(g.holders));
    case _ =>
  }

  lemma EnqueueForgets(g: Gl, h: Holder)
    requires !h.active
    ensures NobodyForgotten(g.holders + [h], Queued(g, h).holders)
  {
    var b := Before(g, Enqueue(h));
    ServicedForgets(b, true);
    ForgottenTrans(g.holders + [h], b.holders, Serviced(b, true).holders);
  }

  // ----- promotion goes as far as it can

  /** The state is what the holder wants, or will do for it. */
  predicate Suits(s: St, h: Holder) {
    s == h.state || (!h.exact && Covers(s, h, h.any))
  }

  /** The first `k` hold now: the head because the state suits it, or it held before, and the others because they go
      with the head.  The next one does not, and of those behind it the ones that merely try are gone. */
  ghost predicate Promoted(s: St, p: seq<Holder>, q: seq<Holder>, k: nat) {
    && k <= |p| && k <= |q| && (forall j :: 0 <= j < k ==> q[j] == p[j].(active := true))
    && (k > 0 ==> (p[0].active || Suits(s, p[0])) && forall j :: 0 < j < k ==> p[j].active || Share(p[0], p[j]))
    && (k < |p| ==> !p[k].active && if k == 0 then !Suits(s, p[0]) else !Share(p[0], p[k]))
    && q[k..] == if k == 0 then p else Without(p[k..], false)
  }

  ghost predicate HoldersFirst(hs: seq<Holder>) {
    forall j, m :: 0 <= j < m < |hs| && hs[m].active ==> hs[j].active
  }

  lemma MayGrantSays(s: St, hs: seq<Holder>, i: nat, lax: bool)
    requires i < |hs| && AllSensible(hs, lax) && (i > 0 ==> hs[0].active) && !hs[i].active
    ensures MayGrant(s, FirstHolder(hs), hs[i]) <==> if i == 0 then Suits(s, hs[0]) else Share(hs[0], hs[i])
  {
    assert Sensible(hs[0], lax) && Sensible(hs[i], lax);
  }

  lemma {:induction false} PromotesFrom(s: St, hs: seq<Holder>, i: nat, lax: bool)
    requires i <= |hs| && (forall j :: 0 <= j < i ==> hs[j].active) && HoldersFirst(hs) && AllSensible(hs, lax)
    ensures exists k: nat :: k >= i && Promoted(s, hs, PromoteFrom(s, hs, i, FirstHolder(hs)), k)
    decreases |hs| - i
  {
    var p := PromoteFrom(s, hs, i, FirstHolder(hs));
    if i == |hs| {
      assert Promoted(s, hs, p, i);
    } else if hs[i].active {
      PromotesFrom(s, hs, i + 1, lax);
    } else {
      MayGrantSays(s, hs, i, lax);
      if !MayGrant(s, FirstHolder(hs), hs[i]) {
        StopsAt(s, hs, i);
      } else {
        var next := hs[i := hs[i].(active := true)];
        PromotesFrom(s, next, i + 1, lax);
        var k: nat :| k >= i + 1 && Promoted(s, next, PromoteFrom(s, next, i + 1, FirstHolder(next)), k);
        OneMore(s, hs, i, p, k);
      }
    }
  }

  lemma OneMore(s: St, hs: seq<Holder>, i: nat, p: seq<Holder>, k: nat)
    requires i < k && i < |hs| && !hs[i].active && Promoted(s, hs[i := hs[i].(active := true)], p, k)
    requires if i == 0 then Suits(s, hs[0]) else hs[0].active && Share(hs[0], hs[i])
    ensures Promoted(s, hs, p, k)
  {
    var next := hs[i := hs[i].(active := true)];
    assert next[k..] == hs[k..];
    assert forall j :: 0 <= j < k ==> next[j].(active := true) == hs[j].(active := true);
  }

  lemma StopsAt(s: St, hs: seq<Holder>, i: nat)
    requires i < |hs| && (forall j :: 0 <= j < i ==> hs[j].active) && HoldersFirst(hs) && !hs[i].active
    requires if i == 0 then !Suits(s, hs[0]) else !Share(hs[0], hs[i])
    ensures Promoted(s, hs, if i == 0 then hs else Without(hs, false), i)
  {
    if i == 0 {
      assert hs[0..] == hs;
    } else {
      var held, waiting := hs[..i], hs[i..];
      assert hs == held + waiting;
      WithoutParts(held, waiting, false);
      HeldStay(hs, held, Without(waiting, false), i);
    }
  }

  lemma HeldStay(hs: seq<Holder>, held: seq<Holder>, rest: seq<Holder>, i: nat)
    requires i <= |hs| && held == hs[..i] && AllHold(held)
    ensures (held + rest)[i..] == rest && forall j :: 0 <= j < i ==> (held + rest)[j] == hs[j].(active := true)
  {
    forall j | 0 <= j < i ensures (held + rest)[j] == hs[j].(active := true) {
      assert held[j].active;
    }
  }

  lemma GoodIsFirst(s: St, hs: seq<Holder>, lax: bool)
    requires Good(s, hs, lax)
    ensures HoldersFirst(hs)
  {
    var n := Lead(hs);
    forall m | n <= m < |hs| ensures !hs[m].active {
      assert hs[m] == hs[n..][m - n];
    }
  }

  /** When what the lock protects has been read, all are let in that can be. */
  lemma EverybodyIsLetIn(gs: seq<Gl>, es: seq<Event>, n: nat, lax: bool, g: Gl, d: Gl)
    requires At(gs, es, n, lax, g, d) && es[n].BottomDone? && !es[n].failed
    ensures exists k: nat :: Promoted(g.state, g.holders, d.holders, k)
    ensures d.phase == Idle
  {
    Facts(gs, es, n, lax, g, d);
    GoodIsFirst(g.state, g.holders, lax);
    PromotesFrom(g.state, g.holders, 0, lax);
  }

  /** After the work function has run on an idle glock, the head of the queue holds, or the lock manager has been
      asked. */
  lemma WorkGetsOn(gs: seq<Gl>, es: seq<Event>, n: nat, lax: bool, g: Gl, d: Gl)
    requires At(gs, es, n, lax, g, d) && es[n].Work? && g.phase == Idle
    ensures d.phase == Xmote || d.holders == [] || d.holders[0].active
    ensures d.phase == Idle && !d.demote ==> exists k: nat :: Promoted(g.state, g.holders, d.holders, k)
  {
    Facts(gs, es, n, lax, g, d);
    GoodIsFirst(g.state, g.holders, lax);
    PromotesFrom(g.state, g.holders, 0, lax);
    WorkAdvances(Before(g, es[n]));
  }

  lemma WorkAdvances(g: Gl)
    requires g.phase == Idle
    ensures var d := Serviced(g, false);
      || d.phase == Xmote
      || (d.phase == Idle && d.demote && FirstHolder(g.holders).Some? && d.holders == g.holders)
      || (d.phase == Idle && !HeadBlocked(g.state, g.holders) && d.holders == Promote(g.state, g.holders) && !d.demote)
  {
    var b := g.(bug := g.bug || g.demoteInProgress);
    if g.demote && g.demoteState != g.state {
      StartEffect(b.(demoteInProgress := true, bug := b.bug || b.demoteState == EX, target := b.demoteState),
                  b.demoteState);
    } else {
      Advances(if g.demote then DemoteWoken(b) else b);
    }
  }

  lemma Advances(g: Gl)
    ensures if HeadBlocked(g.state, g.holders) then Advanced(g).phase == Xmote
            else Advanced(g) == g.(holders := Promote(g.state, g.holders))
  {
    if HeadBlocked(g.state, g.holders) {
      var h := g.holders[0];
      StartEffect(g.(target := h.state, holders := if h.tries then g.holders else Without(g.holders, false)), h.state);
    }
  }

  // ----- the answer of the lock manager

  /** The state wanted has been reached, and no wish to unlock has come in meanwhile. */
  predicate Arrived(g: Gl, s: St) {
    s == g.target && !(g.demoteInProgress && g.demoteState == UN && s != UN)
  }

  /** What an answer that leaves the glock in state `s` leads to.  If that is what was wanted, what the lock protects is
      read, unless the lock was given up. */
  ghost predicate AnswerFollowed(g: Gl, d: Gl, r: Reply, s: St) {
    if Arrived(g, s) then
      d.phase == (if s == UN then Idle else Bottom) && !d.demoteInProgress && d.holders == g.holders
    else MissFollowed(g.holders, g.demoteInProgress, d, r, s)
  }

  /** Otherwise, a cancelled request gives the others their turn first; after an error, all who wait are told, and
      after a refusal those who merely try; and in all other cases the lock manager is asked again, by way of the
      unlocked state. */
  ghost predicate MissFollowed(hs: seq<Holder>, demoting: bool, d: Gl, r: Reply, s: St) {
    if hs == [] || demoting then AskedAgain(d, s)
    else if r == Canceled then NextsTurn(d, hs[1..] + [hs[0]], s)
    else if r == Error then d.phase == Idle && d.holders == [] && d.target == s
    else if hs[0].tries then d.phase == Idle && d.holders == Without(hs, false) && d.target == s
    else AskedAgain(d, s)
  }

  predicate AskedAgain(d: Gl, s: St) {
    d.phase == Xmote && d.req == if s == UN then d.target else UN
  }

  ghost predicate NextsTurn(d: Gl, hs: seq<Holder>, s: St)
    requires hs != []
  {
    d.target == hs[0].state
    && if Suits(s, hs[0]) then d.phase == Idle && d.holders != [] && d.holders[0] == hs[0].(active := true)
       else d.phase == Xmote && d.req == hs[0].state
  }

  lemma AnswersAreFollowed(gs: seq<Gl>, es: seq<Event>, n: nat, lax: bool, g: Gl, d: Gl)
    requires At(gs, es, n, lax, g, d) && es[n].Answer?
    ensures AnswerFollowed(g, d, es[n].r, d.state)
  {
    Facts(gs, es, n, lax, g, d);
    StepFollowed(g, es[n].r, lax);
  }

  lemma StepFollowed(g: Gl, r: Reply, lax: bool)
    requires Inv(g, lax) && Possible(g, Answer(r), lax)
    ensures AnswerFollowed(g, FinishXmote(g, r), r, FinishXmote(g, r).state)
  {
    var g1 := Told(g, r);
    AnswerState(g, r);
    assert g.holders[Lead(g.holders)..] == g.holders;
    if g1.state != g1.target {
      MissedFollowed(g1, r, lax);
    }
  }

  lemma {:induction false} ErrorEndsAll(hs: seq<Holder>)
    requires AllWait(hs)
    ensures Without(hs, true) == []
  {
    if hs != [] {
      ErrorEndsAll(hs[1..]);
    }
  }

  lemma MissedFollowed(g: Gl, r: Reply, lax: bool)
    requires AllWait(g.holders) && AllSensible(g.holders, lax) && !g.invalidating && g.state != EX
    ensures MissFollowed(g.holders, g.demoteInProgress, Missed(g, r), r, g.state)
  {
    MissedEffect(g, r);
    if g.holders != [] && !g.demoteInProgress && r == Canceled {
      NextFollowed(g, lax);
    } else if g.holders != [] && !g.demoteInProgress && r == Error {
      ErrorEndsAll(g.holders);
    } else {
      StartEffect(g, if g.state == UN then g.target else UN);
    }
  }

  lemma NextFollowed(g: Gl, lax: bool)
    requires g.holders != [] && AllWait(g.holders) && AllSensible(g.holders, lax) && !g.invalidating
    ensures NextsTurn(NextInLine(g, 0), g.holders[1..] + [g.holders[0]], g.state)
  {
    var hs := MovedBack(g.holders, 0);
    assert hs == g.holders[1..] + [g.holders[0]] && AllWait(hs) && AllSensible(hs, lax);
    MayGrantSays(g.state, hs, 0, lax);
    StartEffect(g.(holders := hs, target := hs[0].state), hs[0].state);
    PromotesFrom(g.state, hs, 0, lax);
  }

  // ----- failures and tries

  /** If what the lock protects cannot be read, all who wait are told; if it need not be, those who merely try. */
  lemma FailuresAreTold(gs: seq<Gl>, es: seq<Event>, n: nat, lax: bool, g: Gl, d: Gl)
    requires At(gs, es, n, lax, g, d) && es[n].BottomDone? && es[n].failed
    ensures d.phase == Idle && if es[n].error then d.holders == [] else d.holders == Without(g.holders, false)
    ensures !es[n].error ==> forall h :: h in d.holders ==> !h.active && !h.tries
  {
    Facts(gs, es, n, lax, g, d);
    assert g.holders[Lead(g.holders)..] == g.holders;
    ErrorEndsAll(g.holders);
    TriesEnd(g.holders);
  }

  lemma {:induction false} TriesEnd(hs: seq<Holder>)
    requires AllWait(hs)
    ensures forall h :: h in Without(hs, false) ==> !h.active && !h.tries
  {
    if hs != [] {
      TriesEnd(hs[1..]);
      assert !hs[0].active;
    }
  }

  /** While the machine is at work, a request that merely tries is refused at once exactly if something is being
      invalidated, or the state does not suit it and somebody really waits; everybody else queues up. */
  lemma FutileTriesFail(gs: seq<Gl>, es: seq<Event>, n: nat, lax: bool, g: Gl, d: Gl)
    requires At(gs, es, n, lax, g, d) && es[n].Enqueue? && g.phase != Idle
    ensures
      var h := es[n].h;
      var futile := h.tries && (g.invalidating || (!Suits(g.state, h) && exists x :: x in g.holders && !x.tries));
      d.holders == if futile then g.holders else g.holders + [h]
  {
    Facts(gs, es, n, lax, g, d);
    var h := es[n].h;
    assert Lead(g.holders) == 0;
    MayGrantSays(g.state, [h], 0, lax);
  }

  /** A wish for later becomes one for now when its time has come. */
  lemma DelayedWishesCome(gs: seq<Gl>, es: seq<Event>, n: nat, lax: bool, g: Gl, d: Gl)
    requires At(gs, es, n, lax, g, d) && es[n].Work?
    ensures d.pendingDemote == (g.pendingDemote && !(es[n].delayOver && g.state != UN && g.demoteState != EX))
    ensures g.pendingDemote && !d.pendingDemote ==> d.demote || d.state == g.demoteState
  {
    Facts(gs, es, n, lax, g, d);
    RunPursued(gs, es, n, lax);
    ServicedWish(Before(g, es[n]), false);
  }

  /** When an invalidation begins, requests that merely try are told. */
  lemma InvalidationEndsTries(gs: seq<Gl>, es: seq<Event>, n: nat, lax: bool, g: Gl, d: Gl)
    requires At(gs, es, n, lax, g, d) && !g.invalidating && d.invalidating
    ensures NoTries(d.holders)
  {
    Facts(gs, es, n, lax, g, d);
    match es[n]
    case Enqueue(h) => ServicedTries(Before(g, es[n]), true);
    case Work(_) => ServicedTries(Before(g, es[n]), false);
    case Answer(r) => AnswerTries(g, r);
    case _ =>
  }

  ghost predicate NoTries(hs: seq<Holder>) {
    forall h :: h in hs ==> h.active || !h.tries
  }

  lemma {:induction false} WithoutTries(hs: seq<Holder>)
    ensures NoTries(Without(hs, false))
  {
    if hs != [] {
      WithoutTries(hs[1..]);
    }
  }

  lemma StartTries(g: Gl, t: St)
    requires !g.invalidating
    ensures StartXmote(g, t).invalidating ==> NoTries(StartXmote(g, t).holders)
  {
    WithoutTries(g.holders);
  }

  lemma ServicedTries(g: Gl, nonblock: bool)
    requires !g.invalidating
    ensures Serviced(g, nonblock).invalidating ==> NoTries(Serviced(g, nonblock).holders)
  {
    if g.phase == Idle {
      var b := g.(bug := g.bug || g.demoteInProgress);
      if g.demote && g.demoteState != g.state {
        StartTries(b.(demoteInProgress := true, bug := b.bug || b.demoteState == EX, target := b.demoteState),
                   b.demoteState);
      } else {
        AdvancedTries(if g.demote then DemoteWoken(b) else b);
      }
    }
  }

  lemma AdvancedTries(g: Gl)
    requires !g.invalidating
    ensures Advanced(g).invalidating ==> NoTries(Advanced(g).holders)
  {
    if HeadBlocked(g.state, g.holders) {
      var h := g.holders[0];
      StartTries(g.(target := h.state, holders := if h.tries then g.holders else Without(g.holders, false)), h.state);
    }
  }

  lemma AnswerTries(g: Gl, r: Reply)
    requires !g.invalidating
    ensures FinishXmote(g, r).invalidating ==> NoTries(FinishXmote(g, r).holders)
  {
    var g1 := Told(g, r);
    if g1.state != g1.target {
      MissedTries(g1, r);
    }
  }

  lemma MissedTries(g: Gl, r: Reply)
    requires !g.invalidating
    ensures Missed(g, r).invalidating ==> NoTries(Missed(g, r).holders)
  {
    var w := FirstWaiter(g.holders);
    if w < |g.holders| && !g.demoteInProgress && r == Canceled {
      assert Missed(g, r) == NextInLine(g, w);
      NextTries(g, w);
    } else {
      StartTries(g, if g.state == UN then g.target else UN);
    }
  }

  lemma NextTries(g: Gl, w: nat)
    requires w < |g.holders| && !g.holders[w].active && !g.invalidating
    ensures NextInLine(g, w).invalidating ==> NoTries(NextInLine(g, w).holders)
  {
    var hs := MovedBack(g.holders, w);
    assert hs[|hs| - 1] == g.holders[w];
    var first := hs[FirstWaiter(hs)];
    StartTries(g.(holders := hs, target := first.state), first.state);
  }
}

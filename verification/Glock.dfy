/** A cluster lock as the second file system caches it: a queue of holders, of which some hold and the others
    wait, and a state machine that asks the lock manager for other states. */
module Glock {
  import opened Evolution

  datatype St = UN | EX | DF | SH

  datatype Holder = Holder(id: nat, state: St, tries: bool, any: bool, exact: bool, nodeScope: bool, noCache: bool,
    active: bool)

  /** Nothing under way; waiting for the lock manager; or back from it and reading what the lock protects. */
  datatype Phase = Idle | Xmote | Bottom

  /** `bug` records that one of the checks of the state machine has failed. */
  datatype Gl = Gl(
    state: St, target: St, req: St, demoteState: St,
    demote: bool, pendingDemote: bool, demoteInProgress: bool, invalidating: bool,
    phase: Phase, holders: seq<Holder>, hasInval: bool, bug: bool)

  function New(hasInval: bool): Gl {
    Gl(UN, UN, UN, EX, false, false, false, false, Idle, [], hasInval, false)
  }

  // ----- granting

  function FirstHolder(hs: seq<Holder>): Option<Holder> {
    if hs != [] && hs[0].active then Some(hs[0]) else None
  }

  predicate MayGrant(s: St, current: Option<Holder>, h: Holder) {
    if current.Some? then
      match current.value.state
      case EX => h.state == EX && current.value.nodeScope && h.nodeScope
      case UN => false
      case _ => h.state == current.value.state
    else if s == h.state then true
    else if h.exact then false
    else if s == EX then h.state == SH || h.state == DF
    else h.any && s != UN
  }

  /** Give up on waiters: all of them after an error, else those that only try. */
  function Without(hs: seq<Holder>, error: bool): seq<Holder> {
    if hs == [] then []
    else if !hs[0].active && (error || hs[0].tries) then Without(hs[1..], error)
    else [hs[0]] + Without(hs[1..], error)
  }

  function PromoteFrom(s: St, hs: seq<Holder>, i: nat, current: Option<Holder>): seq<Holder>
    decreases |hs| - i
  {
    if i >= |hs| then hs
    else if hs[i].active then PromoteFrom(s, hs, i + 1, current)
    else if !MayGrant(s, current, hs[i]) then (if i == 0 then hs else Without(hs, false))
    else
      var h := hs[i].(active := true);
      PromoteFrom(s, hs[i := h], i + 1, if current.None? then Some(h) else current)
  }

  function Promote(s: St, hs: seq<Holder>): seq<Holder> {
    PromoteFrom(s, hs, 0, FirstHolder(hs))
  }

  /** The head of the queue waits and cannot be granted. */
  predicate HeadBlocked(s: St, hs: seq<Holder>) {
    hs != [] && !hs[0].active && !MayGrant(s, None, hs[0])
  }

  function FirstWaiter(hs: seq<Holder>): (i: nat)
    ensures i <= |hs| && (i < |hs| ==> !hs[i].active) && forall k :: 0 <= k < i ==> hs[k].active
  {
    if hs == [] then 0 else if !hs[0].active then 0 else 1 + FirstWaiter(hs[1..])
  }

  // ----- the state machine

  function DemoteWoken(g: Gl): Gl {
    g.(demoteState := EX, demote := false)
  }

  /** The lock manager is asked for `target`; what may be cached is invalidated first where the type wants it. */
  function StartXmote(g: Gl, target: St): Gl {
    var g := g.(bug := g.bug || g.state == target || g.state == g.target);
    if (target == UN || target == DF) && g.hasInval then
      if g.invalidating then g.(phase := Xmote)
      else g.(invalidating := true, holders := Without(g.holders, false), req := target, phase := Xmote)
    else g.(req := target, phase := Xmote)
  }

  /** Grant what can be granted, or ask for the state the head of the queue wants. */
  function Advanced(g: Gl): Gl {
    if !HeadBlocked(g.state, g.holders) then g.(holders := Promote(g.state, g.holders))
    else
      var h := g.holders[0];
      StartXmote(g.(target := h.state, holders := if h.tries then g.holders else Without(g.holders, false)), h.state)
  }

  /** Do what there is to do, unless the machine is waiting. */
  function Serviced(g: Gl, nonblock: bool): Gl {
    if g.phase != Idle then g
    else
      var g := g.(bug := g.bug || g.demoteInProgress);
      if g.demote && g.demoteState != g.state then
        if FirstHolder(g.holders).Some? || nonblock then g
        else
          StartXmote(g.(demoteInProgress := true, bug := g.bug || g.demoteState == EX, target := g.demoteState),
            g.demoteState)
      else Advanced(if g.demote then DemoteWoken(g) else g)
  }

  datatype Reply = Success | Canceled | Error | Refused

  /** A waiter whose request was cancelled goes to the back of the queue. */
  function MovedBack(hs: seq<Holder>, i: nat): seq<Holder>
    requires i < |hs|
  {
    hs[..i] + hs[i + 1..] + [hs[i]]
  }

  /** The lock manager has answered. */
  function FinishXmote(g: Gl, r: Reply): Gl {
    var g1 := Told(g, r);
    if g1.state == g1.target then Reached(g1) else Missed(g1, r)
  }

  /** The new state; a wish to unlock may have come in during a demotion to something else. */
  function Told(g: Gl, r: Reply): Gl {
    var g := g.(state := if r == Success then g.req else g.state);
    if g.demoteInProgress && g.state != UN && g.demoteState == UN then g.(target := UN) else g
  }

  /** The state wanted has been reached. */
  function Reached(g: Gl): Gl {
    var g1 := if g.demoteInProgress then DemoteWoken(g).(demoteInProgress := false) else g;
    g1.(phase := if g1.state == UN then Idle else Bottom)
  }

  /** It has not: give up on those who asked, or try again, by way of the unlocked state. */
  function Missed(g: Gl, r: Reply): Gl {
    var w := FirstWaiter(g.holders);
    if w < |g.holders| && !g.demoteInProgress && r == Canceled then NextInLine(g, w)
    else if w < |g.holders| && !g.demoteInProgress && (r == Error || g.holders[w].tries) then
      g.(target := g.state, holders := Without(g.holders, r == Error), phase := Idle)
    else if g.state == EX then g.(bug := true)
    else StartXmote(g, if g.state == UN then g.target else UN)
  }

  /** The first waiter's request was cancelled; it is another one's turn. */
  function NextInLine(g: Gl, w: nat): Gl
    requires w < |g.holders| && !g.holders[w].active
  {
    var hs := MovedBack(g.holders, w);
    assert hs[|hs| - 1] == g.holders[w];
    var first := hs[FirstWaiter(hs)];
    var g1 := g.(holders := hs, target := first.state);
    if !HeadBlocked(g1.state, hs) then g1.(holders := Promote(g1.state, hs), phase := Idle)
    else StartXmote(g1, first.state)
  }

  /** What the lock protects has been read, or not. */
  function FinishBottom(g: Gl, failed: bool, error: bool): Gl {
    g.(phase := Idle, holders := if failed then Without(g.holders, error) else Promote(g.state, g.holders))
  }

  /** Somebody wants us to give way. */
  function Called(g: Gl, wish: St, delayed: bool): Gl {
    g.(pendingDemote := g.pendingDemote || delayed, demote := g.demote || !delayed,
       demoteState := if g.demoteState == EX then wish
                      else if g.demoteState != UN && g.demoteState != wish then UN else g.demoteState)
  }

  /** A request that only tries fails at once when it is futile. */
  predicate FailsAtOnce(g: Gl, h: Holder) {
    h.tries
    && (g.invalidating
        || (g.phase != Idle && !MayGrant(g.state, FirstHolder(g.holders), h) && exists x :: x in g.holders && !x.tries))
  }

  function Queued(g: Gl, h: Holder): Gl {
    Serviced(if FailsAtOnce(g, h) then g else g.(holders := g.holders + [h]), true)
  }

  function Dequeued(g: Gl, i: nat): Gl
    requires i < |g.holders|
  {
    var g1 := if g.holders[i].noCache then Called(g, UN, false) else g;
    g1.(holders := g1.holders[..i] + g1.holders[i + 1..])
  }

  /** The work function, after it has dealt with a reply. */
  function Worked(g: Gl, delayOver: bool): Gl {
    Serviced(if g.pendingDemote && g.state != UN && g.demoteState != EX && delayOver
             then g.(pendingDemote := false, demote := true) else g, false)
  }

  class GlockObject {
    var state: St
    var target: St
    var req: St
    var demoteState: St
    var demote: bool
    var pendingDemote: bool
    var demoteInProgress: bool
    var invalidating: bool
    var phase: Phase
    var holders: seq<Holder>
    const hasInval: bool
    var bug: bool

    constructor (hasInval: bool)
      ensures View() == New(hasInval)
    {
      state, target, req, demoteState := UN, UN, UN, EX;
      demote, pendingDemote, demoteInProgress, invalidating := false, false, false, false;
      phase, holders, this.hasInval, bug := Idle, [], hasInval, false;
    }

    function View(): Gl
      reads this
    {
      Gl(state, target, req, demoteState, demote, pendingDemote, demoteInProgress, invalidating, phase, holders,
        hasInval, bug)
    }

    method DoError(error: bool)
      modifies `holders
      ensures holders == Without(old(holders), error)
    {
      var i, kept := 0, [];
      assert holders[0..] == holders;
      while i < |holders|
        invariant i <= |holders|
        invariant kept + Without(holders[i..], error) == Without(holders, error)
      {
        assert holders[i..][1..] == holders[i + 1..];
        if holders[i].active || !(error || holders[i].tries) {
          kept := kept + [holders[i]];
        }
        i := i + 1;
      }
      holders := kept;
    }

    /** Grants as many as possible; false when the head of the queue waits in vain. */
    method DoPromote() returns (progress: bool)
      modifies `holders
      ensures holders == Promote(state, old(holders))
      ensures progress == !HeadBlocked(state, old(holders))
    {
      ghost var was := holders;
      var current := FirstHolder(holders);
      var i := 0;
      while i < |holders|
        invariant i <= |holders| && state == old(state)
        invariant i == 0 ==> holders == was && current == FirstHolder(was)
        invariant i > 0 ==> !HeadBlocked(state, was)
        invariant PromoteFrom(state, holders, i, current) == Promote(state, was)
        decreases |holders| - i
      {
        if !holders[i].active {
          if !MayGrant(state, current, holders[i]) {
            if i == 0 {
              return false;
            }
            DoError(false);
            return true;
          }
          var h := holders[i].(active := true);
          holders := holders[i := h];
          if current.None? {
            current := Some(h);
          }
        }
        i := i + 1;
      }
      return true;
    }

    method FindFirstWaiter() returns (i: nat)
      ensures i == FirstWaiter(holders)
    {
      i := 0;
      assert holders[0..] == holders;
      while i < |holders| && holders[i].active
        invariant i <= |holders|
        invariant FirstWaiter(holders) == i + FirstWaiter(holders[i..])
      {
        assert holders[i..][1..] == holders[i + 1..];
        i := i + 1;
      }
    }

    method DoXmote(to: St)
      modifies this
      ensures View() == StartXmote(old(View()), to)
    {
      if state == to || state == target {
        bug := true;
      }
      if (to == UN || to == DF) && hasInval {
        if invalidating {
          phase := Xmote;
          return;
        }
        invalidating := true;
        DoError(false);
      }
      req := to;
      phase := Xmote;
    }

    method DemoteWake()
      modifies `demoteState, `demote
      ensures demoteState == EX && !demote
    {
      demoteState := EX;
      demote := false;
    }

    method RunQueue(nonblock: bool)
      modifies this
      ensures View() == Serviced(old(View()), nonblock)
    {
      if phase != Idle {
        return;
      }
      if demoteInProgress {
        bug := true;
      }
      if demote && demoteState != state {
        if FirstHolder(holders).Some? || nonblock {
          return;
        }
        demoteInProgress := true;
        if demoteState == EX {
          bug := true;
        }
        target := demoteState;
      } else {
        if demote {
          DemoteWake();
        }
        Advance();
        return;
      }
      DoXmote(target);
    }

    method Advance()
      modifies this
      ensures View() == Advanced(old(View()))
    {
      var progress := DoPromote();
      if progress {
        return;
      }
      var w := FindFirstWaiter();
      var h := holders[w];
      target := h.state;
      if !h.tries {
        DoError(false);
      }
      DoXmote(h.state);
    }

    method HandleCallback(wish: St, delayed: bool)
      modifies `pendingDemote, `demote, `demoteState
      ensures View() == Called(old(View()), wish, delayed)
    {
      if delayed {
        pendingDemote := true;
      } else {
        demote := true;
      }
      if demoteState == EX {
        demoteState := wish;
      } else if demoteState != UN && demoteState != wish {
        demoteState := UN;
      }
    }

    /** The lock manager answers `r`. */
    method Finish(r: Reply)
      modifies this
      ensures View() == FinishXmote(old(View()), r)
    {
      Tell(r);
      if state != target {
        Miss(r);
      } else {
        Reach();
      }
    }

    method Tell(r: Reply)
      modifies `state, `target
      ensures View() == Told(old(View()), r)
    {
      if r == Success {
        state := req;
      }
      if demoteInProgress && state != UN && demoteState == UN {
        target := UN;
      }
    }

    method Reach()
      modifies this
      ensures View() == Reached(old(View()))
    {
      if demoteInProgress {
        demoteInProgress := false;
        DemoteWake();
      }
      phase := if state == UN then Idle else Bottom;
    }

    method Miss(r: Reply)
      modifies this
      ensures View() == Missed(old(View()), r)
    {
      var w := FindFirstWaiter();
      if w < |holders| && !demoteInProgress {
        if r == Canceled {
          FinishCanceled(w);
          return;
        }
        if r == Error || holders[w].tries {
          target := state;
          DoError(r == Error);
          phase := Idle;
          return;
        }
      }
      if state == EX {
        bug := true;
      } else if state == UN {
        DoXmote(target);
      } else {
        DoXmote(UN);
      }
    }

    method FinishCanceled(w: nat)
      requires w < |holders| && !holders[w].active
      modifies this
      ensures View() == NextInLine(old(View()), w)
    {
      holders := MovedBack(holders, w);
      assert holders[|holders| - 1] == old(holders)[w];
      var first := FindFirstWaiter();
      target := holders[first].state;
      var progress := DoPromote();
      if progress {
        phase := Idle;
      } else {
        DoXmote(target);
      }
    }

    /** What the lock protects has been read, or could not be. */
    method FinishBh(failed: bool, error: bool)
      modifies this
      ensures View() == FinishBottom(old(View()), failed, error)
    {
      if failed {
        DoError(error);
      } else {
        var progress := DoPromote();
      }
      phase := Idle;
    }

    method Enqueue(h: Holder)
      modifies this
      ensures View() == Queued(old(View()), h)
    {
      var futile := h.tries && phase != Idle && !MayGrant(state, FirstHolder(holders), h);
      var fails := h.tries && invalidating;
      for i := 0 to |holders|
        invariant fails <==> h.tries && (invalidating || (futile && exists k :: 0 <= k < i && !holders[k].tries))
      {
        if futile && !holders[i].tries {
          fails := true;
        }
      }
      assert fails == FailsAtOnce(View(), h);
      if !fails {
        holders := holders + [h];
      }
      RunQueue(true);
    }

    method Dequeue(i: nat)
      requires i < |holders|
      modifies this
      ensures View() == Dequeued(old(View()), i)
    {
      if holders[i].noCache {
        HandleCallback(UN, false);
      }
      holders := holders[..i] + holders[i + 1..];
    }

    method Work(delayOver: bool)
      modifies this
      ensures View() == Worked(old(View()), delayOver)
    {
      if pendingDemote && state != UN && demoteState != EX && delayOver {
        pendingDemote := false;
        demote := true;
      }
      RunQueue(false);
    }
  }
}

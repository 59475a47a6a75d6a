/** All interleavings of local users, the lock manager's callbacks and the downconvert thread around one lock
    resource.  A request is made in three moves (mark the resource busy, call the lock manager, come back), and
    anything may happen between them. */
module LockResSafety {
  import opened Modes
  import opened Evolution
  import opened LockRes

  /** A call of the lock manager: about to be made, accepted, refused, or refused and back. */
  datatype Stage = Preparing | Accepted | Refused | Failed

  datatype Call = Call(gen: nat, stage: Stage)

  /** The downconvert thread, when it has let go of the spinlock to do the work of the lock type. */
  datatype Thread = AtRest | Working(blocking: Mode, level: Mode)

  /** `current` is the call for which the resource was last marked busy; `called` are the calls that reached
      the lock manager; `owed` says that it still has to answer the current one; `cancelFor` is the call the
      last cancel was meant for. */
  datatype System = System(s: LockState, calls: map<nat, Call>, current: Option<nat>, called: set<nat>, owed: bool,
                           cancelFor: Option<nat>, thread: Thread, dead: bool)

  const Start := System(Detached, map[], None, {}, false, None, AtRest, false)

  datatype Event = Create(call: nat, level: Mode)
                 | Try(call: nat, wanted: Mode, giveUp: bool)
                 | Release(level: Mode)
                 | Enter(call: nat, accepted: bool)
                 | Return(call: nat)
                 | Recover(call: nat)
                 | Ast(again: bool)
                 | CancelAst
                 | Bast(wish: Mode)
                 | Look(call: nat, hold: bool, work: bool)
                 | WorkDone(call: nat, stop: bool, hold: bool, work: bool)
                 | GaveUpWaiting

  ghost predicate Possible(y: System, e: Event) {
    !y.dead
    && match e
      case Create(c, level) => c !in y.calls && c !in y.called && (level == PR || level == EX)
      case Try(c, wanted, _) => c !in y.calls && c !in y.called && (wanted == PR || wanted == EX)
      case Release(level) => (level == EX && y.s.ex > 0) || (level == PR && y.s.ro > 0)
      case Enter(c, _) => c in y.calls && y.calls[c].stage == Preparing
      case Return(c) => c in y.calls && (y.calls[c].stage == Accepted || y.calls[c].stage == Refused)
      case Recover(c) => c in y.calls && y.calls[c].stage == Failed
      case Ast(_) => y.owed
      case CancelAst => y.owed && y.cancelFor == y.current
      case Bast(wish) => y.s.attached && (wish == PR || wish == EX)
      case Look(c, _, _) => c !in y.calls && c !in y.called && y.thread == AtRest
      case WorkDone(c, _, _, _) => c !in y.calls && c !in y.called && y.thread.Working?
      case GaveUpWaiting => true
  }

  /** The resource is marked busy for call `c`. */
  function Begin(y: System, c: nat, s: LockState): System {
    y.(s := s, calls := y.calls[c := Call(s.pendingGen, Preparing)], current := Some(c))
  }

  /** The downconvert is begun; asking for a level that is not lower is a bug that stops the machine. */
  function BeginDown(y: System, c: nat, to: Mode): System {
    if y.s.level <= to then y.(dead := true)
    else Begin(y.(thread := AtRest), c, Requesting(y.s, Downconvert, to))
  }

  function Looked(y: System, c: nat, hold: bool, work: bool): System {
    match Consider(y.s, hold)
    case Nothing => y.(thread := AtRest)
    case Requeue => y.(thread := AtRest)
    case CancelRequest => y.(thread := AtRest, s := y.s.(cancelling := true), cancelFor := y.current)
    case AbortAtNull => y.(thread := AtRest, s := Aborted(y.s))
    case Work(to) => if work then y.(thread := Working(y.s.blocking, y.s.level)) else BeginDown(y, c, to)
  }

  ghost function Next(y: System, e: Event): System
    requires Possible(y, e)
  {
    match e
    case Create(c, level) =>
      if y.s.attached || y.s.busy then y else Begin(y, c, Requesting(y.s, Attach, level))
    case Try(c, wanted, giveUp) =>
      var s := Tried(y.s, wanted, giveUp);
      if !giveUp && Decide(y.s, wanted) == MustAsk then Begin(y, c, s) else y.(s := s)
    case Release(level) => y.(s := Released(y.s, level))
    case Enter(c, accepted) =>
      y.(calls := y.calls[c := y.calls[c].(stage := if accepted then Accepted else Refused)],
         called := y.called + {c}, owed := y.owed || accepted)
    case Return(c) =>
      var s := PendingCleared(y.s, y.calls[c].gen);
      if y.calls[c].stage == Accepted then y.(s := s, calls := y.calls - {c})
      else y.(s := s, calls := y.calls[c := y.calls[c].(stage := Failed)])
    case Recover(c) => y.(s := Recovered(y.s), calls := y.calls - {c})
    case Ast(again) => y.(s := Answered(y.s, again), owed := false)
    case CancelAst => y.(s := Cancelled(y.s), owed := false)
    case Bast(wish) => y.(s := Wished(y.s, wish))
    case Look(c, hold, work) => Looked(y, c, hold, work)
    case WorkDone(c, stop, hold, work) =>
      if stop then y.(thread := AtRest)
      else if y.s.blocking != y.thread.blocking || y.s.level != y.thread.level then Looked(y, c, hold, work)
      else BeginDown(y, c, HighestCompat(y.s.blocking))
    case GaveUpWaiting => y.(s := y.s.(nonblockFinished := true))
  }

  ghost predicate IsRun(ys: seq<System>, es: seq<Event>) {
    && |ys| == |es| + 1 && ys[0] == Start
    && forall i :: 0 <= i < |es| ==> Possible(ys[i], es[i]) && ys[i + 1] == Next(ys[i], es[i])
  }

  // ----- the invariant

  /** Local users are covered by the level. */
  predicate Covered(s: LockState) {
    && (s.ex > 0 ==> s.level == EX)
    && (s.ro > 0 ==> s.level >= PR)
  }

  /** No local user stands above level `m`. */
  predicate NoneAbove(s: LockState, m: Mode) {
    && (s.ex > 0 ==> m >= EX)
    && (s.ro > 0 ==> m >= PR)
  }

  predicate LevelsOk(s: LockState) {
    && s.level in {IV, NL, PR, EX} && s.blocking in {NL, PR, EX}
    && (s.attached <==> s.level >= NL)
    && (s.blocked <==> s.blocking > NL) && (s.blocked ==> s.attached)
    && Covered(s)
  }

  /** The request under way fits the state. */
  predicate RequestOk(s: LockState) {
    && (s.busy <==> s.action != NoAction)
    && (s.pending ==> s.busy)
    && match s.action
       case NoAction => true
       case Attach => !s.attached && s.requested in {PR, EX}
       case Convert => s.attached && s.requested in {PR, EX} && s.requested > s.level
       case Downconvert =>
         s.attached && s.blocked && !s.upFinishing && s.requested in {NL, PR}
         && HighestCompat(s.blocking) <= s.requested < s.level && NoneAbove(s, s.requested)
  }

  ghost predicate CallsOk(y: System) {
    && (y.s.busy ==> y.current.Some?)
    && (y.s.pending ==> y.current.Some? && y.current.value in y.calls && y.calls[y.current.value].gen == y.s.pendingGen)
    && (y.s.busy && !y.s.pending ==> y.current.value in y.called)
    && (y.owed ==>
      y.s.busy && y.current.value in y.called &&
      (y.current.value in y.calls ==> y.calls[y.current.value].stage == Accepted))
    && (y.cancelFor.Some? ==> y.cancelFor.value in y.called && (y.s.pending ==> y.cancelFor != y.current))
    && (y.owed && y.cancelFor == y.current ==> y.s.cancelling)
    && (forall c :: c in y.calls ==> CallOk(y, c))
    && (forall c :: c in y.calls ==> (c in y.called <==> y.calls[c].stage != Preparing))
  }

  ghost predicate CallOk(y: System, c: nat)
    requires c in y.calls
  {
    && y.calls[c].gen <= y.s.pendingGen
    && (y.calls[c].gen == y.s.pendingGen ==> y.s.pending && y.current == Some(c))
    && (y.calls[c].stage != Accepted ==> y.current == Some(c) && y.s.busy && !y.owed)
    && (y.calls[c].stage == Preparing ==> y.s.pending)
    && (y.calls[c].stage == Failed ==> !y.s.pending)
  }

  /** While the thread works without the spinlock, nothing happens that would make its plan wrong. */
  predicate ThreadOk(y: System) {
    y.thread.Working? ==>
      && y.s.blocked && y.thread.blocking in {PR, EX} && y.thread.blocking <= y.s.blocking
      && !y.s.busy && !y.s.upFinishing && NL < y.s.level == y.thread.level
      && NoneAbove(y.s, HighestCompat(y.thread.blocking))
  }

  ghost predicate Inv(y: System) {
    LevelsOk(y.s) && RequestOk(y.s) && CallsOk(y) && ThreadOk(y)
  }

  // ----- each event keeps it

  lemma BeginKeeps(y: System, c: nat, action: Action, level: Mode)
    requires Inv(y) && !y.s.busy && c !in y.calls && c !in y.called && action != NoAction
    requires RequestOk(Requesting(y.s, action, level))
    requires ThreadOk(y.(s := Requesting(y.s, action, level)))
    ensures Inv(Begin(y, c, Requesting(y.s, action, level)))
  {
    var z := Begin(y, c, Requesting(y.s, action, level));
    forall d | d in z.calls ensures CallOk(z, d) {
      if d != c {
        assert CallOk(y, d);
      }
    }
  }

  lemma CreateKeeps(y: System, c: nat, level: Mode)
    requires Inv(y) && Possible(y, Create(c, level))
    ensures Inv(Next(y, Create(c, level)))
  {
    if !y.s.attached && !y.s.busy {
      BeginKeeps(y, c, Attach, level);
    }
  }

  lemma TryKeeps(y: System, c: nat, wanted: Mode, giveUp: bool)
    requires Inv(y) && Possible(y, Try(c, wanted, giveUp))
    ensures Inv(Next(y, Try(c, wanted, giveUp)))
  {
    if !giveUp && Decide(y.s, wanted) == MustAsk {
      AskKeeps(y, c, wanted);
    } else if !giveUp && Decide(y.s, wanted) == GotIt {
      HoldKeeps(y, wanted);
    } else {
      GiveUpKeeps(y);
    }
  }

  lemma AskKeeps(y: System, c: nat, wanted: Mode)
    requires Inv(y) && c !in y.calls && c !in y.called && wanted in {PR, EX} && Decide(y.s, wanted) == MustAsk
    ensures Inv(Begin(y, c, Tried(y.s, wanted, false)))
  {
    BeginKeeps(y, c, if y.s.attached then Convert else Attach, wanted);
  }

  lemma HoldKeeps(y: System, wanted: Mode)
    requires Inv(y) && wanted in {PR, EX} && Decide(y.s, wanted) == GotIt
    ensures Inv(y.(s := Tried(y.s, wanted, false)))
  {
    SameCalls(y, y.(s := Tried(y.s, wanted, false)));
  }

  lemma GiveUpKeeps(y: System)
    requires Inv(y)
    ensures Inv(y.(s := y.s.(upFinishing := false)))
  {
    SameCalls(y, y.(s := y.s.(upFinishing := false)));
  }

  /** The calls, and what they depend on, are as before. */
  lemma SameCalls(y: System, z: System)
    requires Inv(y) && z.calls == y.calls && z.current == y.current && z.called == y.called && z.owed == y.owed
    requires if z.cancelFor == y.cancelFor then y.s.cancelling ==> z.s.cancelling
      else z.cancelFor == y.current && y.s.busy && !y.s.pending && z.s.cancelling
    requires z.s.busy == y.s.busy && z.s.pending == y.s.pending && z.s.pendingGen == y.s.pendingGen
    ensures CallsOk(z)
  {
    forall c | c in z.calls ensures CallOk(z, c) {
      assert CallOk(y, c);
    }
  }

  lemma EnterKeeps(y: System, c: nat, accepted: bool)
    requires Inv(y) && Possible(y, Enter(c, accepted))
    ensures Inv(Next(y, Enter(c, accepted)))
  {
    var z := Next(y, Enter(c, accepted));
    assert CallOk(y, c);
    forall d | d in z.calls ensures CallOk(z, d) {
      assert CallOk(y, d);
    }
  }

  lemma ReturnKeeps(y: System, c: nat)
    requires Inv(y) && Possible(y, Return(c))
    ensures Inv(Next(y, Return(c)))
  {
    var z := Next(y, Return(c));
    assert CallOk(y, c);
    forall d | d in z.calls ensures CallOk(z, d) {
      assert CallOk(y, d);
    }
  }

  lemma RecoverKeeps(y: System, c: nat)
    requires Inv(y) && Possible(y, Recover(c))
    ensures Inv(Next(y, Recover(c)))
  {
    var z := Next(y, Recover(c));
    assert CallOk(y, c);
    forall d | d in z.calls ensures CallOk(z, d) {
      assert CallOk(y, d);
    }
  }

  /** The request is answered; its caller, if it is still on its way back, finds its generation gone. */
  lemma AnswerKeeps(y: System, z: System)
    requires Inv(y) && y.owed && z.calls == y.calls && z.current == y.current && z.called == y.called && !z.owed
      && z.cancelFor == y.cancelFor
    requires !z.s.busy && !z.s.pending
    requires z.s.pendingGen == if y.s.pending then y.s.pendingGen + 1 else y.s.pendingGen
    ensures CallsOk(z)
  {
    forall d | d in z.calls ensures CallOk(z, d) {
      assert CallOk(y, d);
    }
  }

  lemma AstKeeps(y: System, again: bool)
    requires Inv(y) && Possible(y, Ast(again))
    ensures Inv(Next(y, Ast(again)))
  {
    AnswerKeeps(y, Next(y, Ast(again)));
  }

  lemma CancelAstKeeps(y: System)
    requires Inv(y) && Possible(y, CancelAst)
    ensures Inv(Next(y, CancelAst))
  {
    AnswerKeeps(y, Next(y, CancelAst));
  }

  lemma BeginDownKeeps(y: System, c: nat, to: Mode)
    requires Inv(y) && c !in y.calls && c !in y.called && to == HighestCompat(y.s.blocking) && y.s.blocked
    requires y.s.level > to ==> !y.s.busy && !y.s.upFinishing && NoneAbove(y.s, to)
    ensures BeginDown(y, c, to).dead || Inv(BeginDown(y, c, to))
  {
    if y.s.level > to {
      BeginKeeps(y.(thread := AtRest), c, Downconvert, to);
    }
  }

  lemma LookedKeeps(y: System, c: nat, hold: bool, work: bool)
    requires Inv(y) && c !in y.calls && c !in y.called
    ensures Looked(y, c, hold, work).dead || Inv(Looked(y, c, hold, work))
  {
    var z := Looked(y, c, hold, work);
    var p := Consider(y.s, hold);
    if p.Work? && !work {
      BeginDownKeeps(y, c, p.to);
    } else {
      SameCalls(y, z);
    }
  }

  lemma WorkDoneKeeps(y: System, c: nat, stop: bool, hold: bool, work: bool)
    requires Inv(y) && Possible(y, WorkDone(c, stop, hold, work))
    ensures var z := Next(y, WorkDone(c, stop, hold, work)); z.dead || Inv(z)
  {
    if stop {
      SameCalls(y, y.(thread := AtRest));
    } else if y.s.blocking != y.thread.blocking || y.s.level != y.thread.level {
      LookedKeeps(y, c, hold, work);
    } else {
      BeginDownKeeps(y, c, HighestCompat(y.s.blocking));
    }
  }

  lemma ReleaseKeeps(y: System, level: Mode)
    requires Inv(y) && Possible(y, Release(level))
    ensures Inv(Next(y, Release(level)))
  {
    SameCalls(y, Next(y, Release(level)));
  }

  lemma BastKeeps(y: System, wish: Mode)
    requires Inv(y) && Possible(y, Bast(wish))
    ensures Inv(Next(y, Bast(wish)))
  {
    WishKeepsState(y.s, wish);
    SameCalls(y, y.(s := Wished(y.s, wish)));
  }

  lemma WishKeepsState(s: LockState, wish: Mode)
    requires LevelsOk(s) && RequestOk(s) && s.attached && wish in {PR, EX}
    ensures LevelsOk(Wished(s, wish)) && RequestOk(Wished(s, wish)) && s.blocking <= Wished(s, wish).blocking
    ensures s.blocked ==> Wished(s, wish).blocked
  {
  }

  lemma StepKeepsInv(y: System, e: Event)
    requires Inv(y) && Possible(y, e)
    ensures Next(y, e).dead || Inv(Next(y, e))
  {
    match e
    case Create(c, level) => CreateKeeps(y, c, level);
    case Try(c, wanted, giveUp) => TryKeeps(y, c, wanted, giveUp);
    case Release(level) => ReleaseKeeps(y, level);
    case Enter(c, accepted) => EnterKeeps(y, c, accepted);
    case Return(c) => ReturnKeeps(y, c);
    case Recover(c) => RecoverKeeps(y, c);
    case Ast(again) => AstKeeps(y, again);
    case CancelAst => CancelAstKeeps(y);
    case Bast(wish) => BastKeeps(y, wish);
    case Look(c, hold, work) => LookedKeeps(y, c, hold, work);
    case WorkDone(c, stop, hold, work) => WorkDoneKeeps(y, c, stop, hold, work);
    case GaveUpWaiting => SameCalls(y, Next(y, e));
  }

  lemma {:induction false} RunInv(ys: seq<System>, es: seq<Event>, n: nat)
    requires IsRun(ys, es) && n <= |es| && !ys[n].dead
    ensures Inv(ys[n])
  {
    if n > 0 {
      RunInv(ys, es, n - 1);
      StepKeepsInv(ys[n - 1], es[n - 1]);
    }
  }

  // ----- what follows

  /** A resource that is busy and no longer pending is one whose request has reached the lock manager. */
  lemma BusyWithoutPendingWasCalled(ys: seq<System>, es: seq<Event>, n: nat)
    requires IsRun(ys, es) && n <= |es| && !ys[n].dead
    ensures ys[n].s.busy && !ys[n].s.pending ==> ys[n].current.Some? && ys[n].current.value in ys[n].called
  {
    RunInv(ys, es, n);
  }

  /** A call that comes back clears only its own mark: if it clears one at all, it is the current call. */
  lemma LateReturnClearsNothing(ys: seq<System>, es: seq<Event>, n: nat)
    requires IsRun(ys, es) && n < |es| && es[n].Return?
    ensures ys[n + 1].s == ys[n].s || (ys[n].current == Some(es[n].call) && es[n].call in ys[n].called)
  {
    RunInv(ys, es, n);
    var c := es[n].call;
    assert Possible(ys[n], es[n]);
    assert CallOk(ys[n], c);
  }

  /** The downconvert thread cancels a request only after the lock manager has got it. */
  lemma NoCancelTooEarly(ys: seq<System>, es: seq<Event>, n: nat)
    requires IsRun(ys, es) && n < |es| && ys[n + 1].cancelFor != ys[n].cancelFor
    ensures ys[n + 1].cancelFor == ys[n].current && ys[n].current.Some? && ys[n].current.value in ys[n].called
  {
    RunInv(ys, es, n);
    assert Possible(ys[n], es[n]);
  }

  /** Local users are always covered by the level held; and while a downconvert is on its way nobody stands, or
      gets, above the level it goes down to. */
  lemma HoldersAreCovered(ys: seq<System>, es: seq<Event>, n: nat)
    requires IsRun(ys, es) && n <= |es| && !ys[n].dead
    ensures Covered(ys[n].s)
    ensures ys[n].s.action == Downconvert ==> ys[n].s.busy && NoneAbove(ys[n].s, ys[n].s.requested)
  {
    RunInv(ys, es, n);
  }

  /** None of the handlers' checks ever fails. */
  lemma HandlersFindWhatTheyExpect(ys: seq<System>, es: seq<Event>, n: nat)
    requires IsRun(ys, es) && n < |es|
    ensures es[n].Ast? ==>
      var s := ys[n].s;
      && s.busy && s.action != NoAction && (s.attached <==> s.action != Attach)
      && (s.action == Downconvert ==> s.blocked && s.blocking > NL)
    ensures es[n].CancelAst? ==> ys[n].s.cancelling
    ensures !ys[n].s.blocked ==> ys[n].s.blocking == NL
    ensures ys[n].s.level == NL ==> ys[n].s.ex == 0 && ys[n].s.ro == 0
    ensures es[n].Look? && Consider(ys[n].s, es[n].hold) == CancelRequest ==>
      ys[n].s.action == Convert || ys[n].s.action == Downconvert
  {
    RunInv(ys, es, n);
    assert Possible(ys[n], es[n]);
  }

  /** The one check that depends on the lock manager: a downconvert is asked for in vain exactly when the level
      already suits the other node's wish. */
  lemma DiesExactly(ys: seq<System>, es: seq<Event>, n: nat)
    requires IsRun(ys, es) && n < |es|
    ensures ys[n + 1].dead <==>
      var s := ys[n].s;
      && s.level <= HighestCompat(s.blocking)
      && match es[n]
         case Look(_, hold, work) => Consider(s, hold).Work? && !work
         case WorkDone(_, stop, _, _) => !stop && s.blocking == ys[n].thread.blocking
         case _ => false
  {
    RunInv(ys, es, n);
    assert Possible(ys[n], es[n]);
  }

  // ----- wishes that are no surprise

  /** A wish arrives only while the level is too high for it. */
  predicate Timely(y: System, e: Event) {
    e.Bast? ==> y.s.level > HighestCompat(e.wish)
  }

  /** There is still something to go down from. */
  predicate Reasoned(s: LockState) {
    s.blocked ==> s.level > HighestCompat(s.blocking)
  }

  lemma AnswerLeavesReason(s: LockState, again: bool)
    requires LevelsOk(s) && RequestOk(s) && Reasoned(s)
    ensures Reasoned(Answered(s, again))
  {
  }

  lemma LookLeavesReason(y: System, c: nat, hold: bool, work: bool)
    requires LevelsOk(y.s) && Reasoned(y.s)
    ensures Reasoned(Looked(y, c, hold, work).s) && (Looked(y, c, hold, work).dead ==> y.dead)
  {
  }

  lemma WorkLeavesReason(y: System, c: nat, stop: bool, hold: bool, work: bool)
    requires Inv(y) && Reasoned(y.s) && Possible(y, WorkDone(c, stop, hold, work))
    ensures var z := Next(y, WorkDone(c, stop, hold, work)); Reasoned(z.s) && !z.dead
  {
    LookLeavesReason(y, c, hold, work);
  }

  lemma StepLeavesReason(y: System, e: Event)
    requires Inv(y) && Possible(y, e) && Timely(y, e) && Reasoned(y.s)
    ensures Reasoned(Next(y, e).s) && !Next(y, e).dead
  {
    match e
    case Ast(again) => AnswerLeavesReason(y.s, again);
    case Look(c, hold, work) => LookLeavesReason(y, c, hold, work);
    case WorkDone(c, stop, hold, work) => WorkLeavesReason(y, c, stop, hold, work);
    case Bast(_) =>
    case _ => OthersLeaveLevels(y, e);
  }

  predicate SameLevels(s: LockState, t: LockState) {
    t.level == s.level && t.blocking == s.blocking && t.blocked == s.blocked
  }

  lemma OthersLeaveLevels(y: System, e: Event)
    requires Possible(y, e) && !e.Ast? && !e.Look? && !e.WorkDone? && !e.Bast?
    ensures SameLevels(y.s, Next(y, e).s) && Next(y, e).dead == y.dead
  {
    match e
    case Try(_, wanted, giveUp) => TryLeavesLevels(y.s, wanted, giveUp);
    case _ =>
  }

  lemma TryLeavesLevels(s: LockState, wanted: Mode, giveUp: bool)
    ensures SameLevels(s, Tried(s, wanted, giveUp))
  {
  }

  /** If every wish is timely, no downconvert is ever asked for in vain. */
  lemma {:induction false} TimelyRunsNeverDie(ys: seq<System>, es: seq<Event>, n: nat)
    requires IsRun(ys, es) && n <= |es| && forall k :: 0 <= k < n ==> Timely(ys[k], es[k])
    ensures !ys[n].dead && Reasoned(ys[n].s)
  {
    if n > 0 {
      TimelyRunsNeverDie(ys, es, n - 1);
      RunInv(ys, es, n - 1);
      assert Possible(ys[n - 1], es[n - 1]);
      StepLeavesReason(ys[n - 1], es[n - 1]);
    }
  }

  const SURPRISE: seq<Event> := [Create(0, PR), Enter(0, true), Ast(false), Bast(PR), Look(1, false, false)]

  const Y1 := Start.(s := Requesting(Detached, Attach, PR), calls := map[0 := Call(0, Preparing)], current := Some(0))
  const Y2 := Y1.(calls := map[0 := Call(0, Accepted)], called := {0}, owed := true)
  const Y3 := Y2.(s := Detached.(level := PR, requested := PR, attached := true, pendingGen := 1), owed := false)
  const Y4 := Y3.(s := Y3.s.(blocking := PR, blocked := true))

  /** A reader is told that another node wants to read. */
  lemma SurpriseKills()
    ensures exists ys: seq<System> :: IsRun(ys, SURPRISE) && ys[5].dead
  {
    assert Y1 == Next(Start, SURPRISE[0]);
    assert Y2 == Next(Y1, SURPRISE[1]);
    assert Y3 == Next(Y2, SURPRISE[2]);
    assert Y4 == Next(Y3, SURPRISE[3]);
    assert IsRun([Start, Y1, Y2, Y3, Y4, Y4.(dead := true)], SURPRISE);
  }
}

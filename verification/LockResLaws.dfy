/** What becomes of a wish, of a request and of a local user: said of each step of every run, in terms of levels
    that are compatible or not. */
module LockResLaws {
  import opened Modes
  import opened Evolution
  import opened LockRes
  import opened LockResSafety

  /** Step `n` of a run, from `y` to `z`, does not stop the machine. */
  ghost predicate At(ys: seq<System>, es: seq<Event>, n: nat, y: System, z: System) {
    IsRun(ys, es) && n < |es| && y == ys[n] && z == ys[n + 1]
  }

  lemma Facts(ys: seq<System>, es: seq<Event>, n: nat, y: System, z: System)
    requires At(ys, es, n, y, z)
    ensures Possible(y, es[n]) && z == Next(y, es[n]) && Inv(y) && (z.dead || Inv(z))
  {
    assert Possible(ys[n], es[n]);
    RunInv(ys, es, n);
    StepKeepsInv(y, es[n]);
  }

  /** The step alone. */
  lemma StepFacts(ys: seq<System>, es: seq<Event>, n: nat, y: System, z: System)
    requires At(ys, es, n, y, z)
    ensures Possible(y, es[n]) && z == Next(y, es[n]) && LevelsOk(y.s) && RequestOk(y.s)
  {
    Facts(ys, es, n, y, z);
  }

  /** All that the downconvert thread can do to the resource. */
  ghost predicate ThreadState(s: LockState, t: LockState) {
    || t == s || t == s.(cancelling := true)
    || (s.level <= NL && t == s.(blocking := NL, blocked := false))
    || (!s.busy && !s.upFinishing && t == Requesting(s, Downconvert, HighestCompat(s.blocking)))
  }

  lemma LookStates(y: System, c: nat, hold: bool, work: bool)
    requires LevelsOk(y.s)
    ensures ThreadState(y.s, Looked(y, c, hold, work).s)
  {
  }

  lemma ThreadStates(y: System, e: Event)
    requires Inv(y) && Possible(y, e) && (e.Look? || e.WorkDone?)
    ensures ThreadState(y.s, Next(y, e).s)
  {
    LookStates(y, e.call, e.hold, e.work);
  }

  // ----- wishes

  /** A wish is given up only when the level suits it, and as long as it is not, it never gets weaker. */
  lemma WishesAreKept(ys: seq<System>, es: seq<Event>, n: nat, y: System, z: System)
    requires At(ys, es, n, y, z) && y.s.blocked
    ensures if z.s.blocked then y.s.blocking <= z.s.blocking else Compat(z.s.level, y.s.blocking)
  {
    Facts(ys, es, n, y, z);
    if es[n].Bast? {
      WishKeepsState(y.s, es[n].wish);
    } else if es[n].Ast? {
      AnswerKeepsWish(y.s, es[n].again);
    } else if es[n].Look? || es[n].WorkDone? {
      ThreadStates(y, es[n]);
      ThreadKeepsWish(y.s, z.s);
    } else {
      OthersLeaveLevels(y, es[n]);
    }
  }

  lemma AnswerKeepsWish(s: LockState, again: bool)
    requires LevelsOk(s) && RequestOk(s) && s.blocked
    ensures var t := Answered(s, again);
      if t.blocked then t.blocking == s.blocking else Compat(t.level, s.blocking)
  {
    HighestCompatIsHighest(s.blocking, NL);
    HighestCompatIsHighest(s.blocking, PR);
    HighestCompatIsHighest(s.blocking, EX);
  }

  lemma ThreadKeepsWish(s: LockState, t: LockState)
    requires ThreadState(s, t) && s.blocked
    ensures if t.blocked then t.blocking == s.blocking else Compat(t.level, s.blocking)
  {
  }

  /** Another node's wish is written down, whatever else is going on. */
  lemma WishesAreHeard(ys: seq<System>, es: seq<Event>, n: nat, y: System, z: System)
    requires At(ys, es, n, y, z) && es[n].Bast?
    ensures z.s.blocked && es[n].wish <= z.s.blocking
    ensures z.s.blocking == es[n].wish || (y.s.blocked && z.s.blocking == y.s.blocking)
    ensures z.s.level == y.s.level && z.s.busy == y.s.busy && z.s.ex == y.s.ex && z.s.ro == y.s.ro
  {
    Facts(ys, es, n, y, z);
  }

  // ----- levels

  /** The level changes only by an answer, and then to what was asked for. */
  lemma LevelIsWhatWasAsked(ys: seq<System>, es: seq<Event>, n: nat, y: System, z: System)
    requires At(ys, es, n, y, z)
    ensures z.s.level == if es[n] == Ast(false) then y.s.requested else y.s.level
  {
    Facts(ys, es, n, y, z);
    StepLevel(y, es[n]);
  }

  lemma StepLevel(y: System, e: Event)
    requires Inv(y) && Possible(y, e)
    ensures Next(y, e).s.level == if e == Ast(false) then y.s.requested else y.s.level
  {
    match e
    case Look(_, _, _) => ThreadStates(y, e);
    case WorkDone(_, _, _, _) => ThreadStates(y, e);
    case Ast(again) => AnswerEnds(y.s, again);
    case Bast(_) =>
    case _ => OthersLeaveLevels(y, e);
  }

  lemma AnswerEnds(s: LockState, again: bool)
    requires RequestOk(s) && s.busy
    ensures var t := Answered(s, again);
      && !t.busy && t.action == NoAction && !t.pending && !t.cancelling && t.ex == s.ex && t.ro == s.ro
      && t.level == if again then s.level else s.requested
  {
    if !again {
      match s.action
      case Attach =>
      case Convert =>
      case Downconvert =>
    }
  }

  /** An answer ends the request, whatever it is. */
  lemma AnswersEndRequests(ys: seq<System>, es: seq<Event>, n: nat, y: System, z: System)
    requires At(ys, es, n, y, z) && (es[n].Ast? || es[n].CancelAst?)
    ensures !z.s.busy && z.s.action == NoAction && !z.s.pending && !z.s.cancelling && !z.owed
    ensures z.s.ex == y.s.ex && z.s.ro == y.s.ro
  {
    Facts(ys, es, n, y, z);
    if es[n].Ast? {
      AnswerEnds(y.s, es[n].again);
    }
  }

  // ----- local users

  predicate Suits(s: LockState, wanted: Mode) {
    !s.blocked || Compat(wanted, s.blocking)
  }

  predicate UserGets(s: LockState, wanted: Mode) {
    wanted <= s.level && (s.upFinishing || Suits(s, wanted))
  }

  predicate UserAsks(s: LockState, wanted: Mode) {
    wanted > s.level && !s.busy && Suits(s, wanted)
  }

  /** A local user gets the lock exactly if the level is high enough, and no other node's wish stands against it or
      the level has just been raised; otherwise a higher level is asked for, exactly if nothing else is under way
      and no wish stands against that; otherwise it waits.  Who gives up leaves no trace but one: a level that has
      just been raised is no longer kept for it. */
  lemma UsersAreServed(ys: seq<System>, es: seq<Event>, n: nat, y: System, z: System)
    requires At(ys, es, n, y, z) && es[n].Try?
    ensures
      var c, wanted, giveUp := es[n].call, es[n].wanted, es[n].giveUp;
      if !giveUp && UserAsks(y.s, wanted) then
        && z.s.busy && z.s.pending && z.s.requested == wanted && z.current == Some(c) && c in z.calls
        && z.s.action == (if y.s.attached then Convert else Attach)
        && z.s.ex == y.s.ex && z.s.ro == y.s.ro && z.s.upFinishing == y.s.upFinishing
      else
        && z.calls == y.calls && z.s.busy == y.s.busy && z.s.requested == y.s.requested && !z.s.upFinishing
        && z.s.ex == y.s.ex + (if !giveUp && UserGets(y.s, wanted) && wanted == EX then 1 else 0)
        && z.s.ro == y.s.ro + (if !giveUp && UserGets(y.s, wanted) && wanted == PR then 1 else 0)
  {
    StepFacts(ys, es, n, y, z);
    DecidedExactly(y.s, es[n].wanted);
  }

  lemma DecidedExactly(s: LockState, wanted: Mode)
    requires LevelsOk(s) && wanted in {PR, EX}
    ensures Decide(s, wanted)
            == if UserAsks(s, wanted) then MustAsk else if UserGets(s, wanted) then GotIt else MustWait
  {
    HighestCompatIsHighest(s.blocking, wanted);
  }

  /** Who lets go is one user of its level less, and nothing else changes. */
  lemma UsersLetGo(ys: seq<System>, es: seq<Event>, n: nat, y: System, z: System)
    requires At(ys, es, n, y, z) && es[n].Release?
    ensures z.s.ex + z.s.ro == y.s.ex + y.s.ro - 1 && if es[n].level == EX then z.s.ro == y.s.ro else z.s.ex == y.s.ex
  {
    Facts(ys, es, n, y, z);
  }

  /** A level that has been raised is kept until a local user has had it: the answer marks it, unless the user did
      not wait, and a marked level is not given away. */
  lemma RaisedLevelIsMarked(ys: seq<System>, es: seq<Event>, n: nat, y: System, z: System)
    requires At(ys, es, n, y, z) && es[n] == Ast(false) && y.s.action == Convert
    ensures z.s.upFinishing == (y.s.upFinishing || !y.s.nonblockFinished) && !z.s.nonblockFinished
  {
    Facts(ys, es, n, y, z);
  }

  lemma RaisedLevelIsUsedOnce(ys: seq<System>, es: seq<Event>, n: nat, y: System, z: System)
    requires At(ys, es, n, y, z) && y.s.upFinishing
    ensures !z.s.upFinishing ==> es[n].Try? || es[n].Recover?
    ensures z.s.action == Downconvert ==> y.s.action == Downconvert
  {
    Facts(ys, es, n, y, z);
    if es[n].Look? || es[n].WorkDone? {
      ThreadStates(y, es[n]);
    } else if es[n].Ast? {
      AnswerEnds(y.s, es[n].again);
      AnswerKeepsMark(y.s, es[n].again);
    } else {
      OthersKeepMark(y, es[n]);
    }
  }

  lemma OthersKeepMark(y: System, e: Event)
    requires Possible(y, e) && !e.Ast? && !e.Look? && !e.WorkDone?
    ensures var t := Next(y, e).s;
      && (y.s.upFinishing && !t.upFinishing ==> e.Try? || e.Recover?)
      && (t.action == Downconvert ==> y.s.action == Downconvert)
  {
    match e
    case Try(_, wanted, giveUp) => TryNeverGoesDown(y.s, wanted, giveUp);
    case _ =>
  }

  lemma TryNeverGoesDown(s: LockState, wanted: Mode, giveUp: bool)
    ensures Tried(s, wanted, giveUp).action == Downconvert ==> s.action == Downconvert
  {
  }

  lemma AnswerKeepsMark(s: LockState, again: bool)
    ensures s.upFinishing ==> Answered(s, again).upFinishing
  {
  }

  // ----- the calls of the lock manager

  /** A request for the first level is begun exactly if there is none and none is under way. */
  lemma FirstLevelIsAskedFor(ys: seq<System>, es: seq<Event>, n: nat, y: System, z: System)
    requires At(ys, es, n, y, z) && es[n].Create?
    ensures
      if y.s.level < NL && !y.s.busy then
        && z.s == y.s.(action := Attach, requested := es[n].level, busy := true, pending := true)
        && z.current == Some(es[n].call) && es[n].call in z.calls
      else z == y
  {
    Facts(ys, es, n, y, z);
  }

  /** The call that comes back takes its own mark off; when it was refused, its caller makes an end of the request and
      of what was kept for it. */
  lemma CallsComeBack(ys: seq<System>, es: seq<Event>, n: nat, y: System, z: System)
    requires At(ys, es, n, y, z)
    ensures es[n].Return? && y.current == Some(es[n].call) ==> !z.s.pending
    ensures es[n].Return? ==> z.s == y.s.(pending := z.s.pending, pendingGen := z.s.pendingGen)
    ensures es[n].Return? ==> (es[n].call in z.calls <==> y.calls[es[n].call].stage == Refused)
    ensures es[n].Recover? ==>
      es[n].call !in z.calls && z.s == y.s.(busy := false, upFinishing := false, action := NoAction)
    ensures es[n] == GaveUpWaiting ==> z.s == y.s.(nonblockFinished := true)
    ensures es[n].Enter? ==> z.s == y.s && es[n].call in z.called && z.owed == (y.owed || es[n].accepted)
  {
    Facts(ys, es, n, y, z);
    if es[n].Return? {
      assert CallOk(y, es[n].call);
    }
  }

  // ----- the downconvert thread

  predicate UsersSuit(s: LockState) {
    (s.ex > 0 ==> Compat(EX, s.blocking)) && (s.ro > 0 ==> Compat(PR, s.blocking))
  }

  /** The wish can be met now. */
  predicate MayGoDown(s: LockState, hold: bool) {
    s.blocked && !s.busy && !s.upFinishing && s.level > NL && UsersSuit(s) && !hold
  }

  /** A downconvert to the highest level that suits the other node's wish has been begun. */
  ghost predicate GoesDown(y: System, z: System, c: nat) {
    && z.s.busy && z.s.pending && z.s.action == Downconvert && z.current == Some(c) && c in z.calls
    && forall m :: m in {NL, PR, EX} ==> (m <= z.s.requested <==> Compat(m, y.s.blocking))
  }

  /** What the thread does: go down, or begin the work before that, exactly if the wish can be met; cancel a request
      exactly if one is under way that has been made, and has not been cancelled; forget the wish exactly if there is
      nothing to give up; otherwise nothing. */
  ghost predicate ThreadActs(y: System, z: System, c: nat, hold: bool, work: bool) {
    if MayGoDown(y.s, hold) then
      if work then z.s == y.s && z.thread == Working(y.s.blocking, y.s.level) && z.calls == y.calls
      else z.dead || GoesDown(y, z, c)
    else
      && z.thread == AtRest && z.calls == y.calls
      && if y.s.blocked && y.s.busy && !y.s.pending && !y.s.cancelling then
           z.s == y.s.(cancelling := true) && z.cancelFor == y.current
         else if y.s.blocked && !y.s.busy && !y.s.upFinishing && y.s.level <= NL then
           z.s == y.s.(blocked := false, blocking := NL) && z.cancelFor == y.cancelFor
         else z.s == y.s && z.cancelFor == y.cancelFor
  }

  lemma ThreadDoes(ys: seq<System>, es: seq<Event>, n: nat, y: System, z: System)
    requires At(ys, es, n, y, z) && es[n].Look?
    ensures ThreadActs(y, z, es[n].call, es[n].hold, es[n].work)
  {
    Facts(ys, es, n, y, z);
    LookActs(y, es[n].call, es[n].hold, es[n].work);
  }

  lemma LookActs(y: System, c: nat, hold: bool, work: bool)
    requires Inv(y)
    ensures ThreadActs(y, Looked(y, c, hold, work), c, hold, work)
  {
    forall m | m in {NL, PR, EX} ensures m <= HighestCompat(y.s.blocking) <==> Compat(m, y.s.blocking) {
      HighestCompatIsHighest(y.s.blocking, m);
    }
  }

  /** After work without the spinlock, the thread goes down if level and wish are still what they were, and starts
      over if they are not. */
  lemma ThreadGoesOn(ys: seq<System>, es: seq<Event>, n: nat, y: System, z: System)
    requires At(ys, es, n, y, z) && es[n].WorkDone?
    ensures
      if es[n].stop then z == y.(thread := AtRest)
      else if y.thread == Working(y.s.blocking, y.s.level) then z.dead || GoesDown(y, z, es[n].call)
      else ThreadActs(y, z, es[n].call, es[n].hold, es[n].work)
  {
    Facts(ys, es, n, y, z);
    LookActs(y, es[n].call, es[n].hold, es[n].work);
    forall m | m in {NL, PR, EX} ensures m <= HighestCompat(y.s.blocking) <==> Compat(m, y.s.blocking) {
      HighestCompatIsHighest(y.s.blocking, m);
    }
  }
}

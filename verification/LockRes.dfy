/** A cluster lock as the file system caches it on one node: the level it holds, the request under way, what
    other nodes want, and how many local users there are.  Each function is one critical section of the lock
    resource's spinlock; the class below is proved to compute them. */
module LockRes {
  import opened Modes

  datatype Action = NoAction | Attach | Convert | Downconvert

  datatype LockState = LockState(
    level: Mode, requested: Mode, blocking: Mode,
    attached: bool, busy: bool, pending: bool, blocked: bool, upFinishing: bool, nonblockFinished: bool,
    action: Action, cancelling: bool, pendingGen: nat, ro: nat, ex: nat)

  const Detached := LockState(IV, IV, NL, false, false, false, false, false, false, NoAction, false, 0, 0, 0)

  /** The highest level another node's wish leaves us; the file system uses null, PR and EX only. */
  function HighestCompat(level: Mode): Mode {
    if level == EX then NL else if level == PR then PR else EX
  }

  /** The reason for the name: it is compatible with the other node's wish, and nothing higher is. */
  lemma HighestCompatIsHighest(wish: Mode, m: Mode)
    requires wish in {NL, PR, EX} && m in {NL, PR, EX}
    ensures Compat(HighestCompat(wish), wish)
    ensures m <= HighestCompat(wish) <==> Compat(m, wish)
  {
  }

  // ----- the pending generation

  function PendingCleared(s: LockState, gen: nat): LockState {
    if s.pending && s.pendingGen == gen then s.(pending := false, pendingGen := s.pendingGen + 1) else s
  }

  /** A request is about to be made; the caller keeps the generation. */
  function Requesting(s: LockState, action: Action, level: Mode): LockState {
    s.(action := action, requested := level, busy := true, pending := true)
  }

  // ----- callbacks of the lock manager

  function Attached(s: LockState): LockState {
    s.(level := s.requested, attached := true, busy := false)
  }

  function Converted(s: LockState): LockState {
    s.(level := s.requested, busy := false,
       upFinishing := if s.nonblockFinished then s.upFinishing else true, nonblockFinished := false)
  }

  function Downconverted(s: LockState): LockState {
    var t := s.(level := s.requested, busy := false);
    if s.requested <= HighestCompat(s.blocking) then t.(blocking := NL, blocked := false) else t
  }

  /** The request has been answered: granted, or refused because it would have had to wait. */
  function Answered(s: LockState, again: bool): LockState {
    var t := if again then s.(busy := false)
             else match s.action
               case Attach => Attached(s)
               case Convert => Converted(s)
               case Downconvert => Downconverted(s)
               case NoAction => s;
    PendingCleared(t.(action := NoAction, cancelling := false), t.pendingGen)
  }

  /** The request has been cancelled. */
  function Cancelled(s: LockState): LockState {
    s.(action := NoAction, busy := false, cancelling := false)
  }

  /** Another node wants the lock. */
  function Wished(s: LockState, level: Mode): LockState {
    if level > s.blocking then
      s.(blocking := level, blocked := s.blocked || HighestCompat(level) < HighestCompat(s.blocking))
    else s
  }

  function Recovered(s: LockState): LockState {
    s.(busy := false, upFinishing := false, action := NoAction)
  }

  // ----- local users

  datatype Outcome = GotIt | MustWait | MustAsk

  /** What a local user meets. */
  function Decide(s: LockState, wanted: Mode): Outcome {
    if s.busy && wanted > s.level then MustWait
    else if s.upFinishing && wanted <= s.level then GotIt
    else if s.blocked && wanted > HighestCompat(s.blocking) then MustWait
    else if wanted > s.level then MustAsk
    else GotIt
  }

  function Tried(s: LockState, wanted: Mode, giveUp: bool): LockState {
    if giveUp then s.(upFinishing := false)
    else match Decide(s, wanted)
      case GotIt =>
        if wanted == EX then s.(upFinishing := false, ex := s.ex + 1) else s.(upFinishing := false, ro := s.ro + 1)
      case MustWait => s.(upFinishing := false)
      case MustAsk => Requesting(s, if s.attached then Convert else Attach, wanted)
  }

  function Released(s: LockState, level: Mode): LockState
    requires if level == EX then s.ex > 0 else s.ro > 0
  {
    if level == EX then s.(ex := s.ex - 1) else s.(ro := s.ro - 1)
  }

  // ----- the downconvert thread

  datatype Plan = Nothing | Requeue | CancelRequest | AbortAtNull | Work(to: Mode)

  /** What the thread decides to do about a blocked lock; `hold` stands for the reasons of the lock type to wait. */
  function Consider(s: LockState, hold: bool): Plan {
    if !s.blocked then Nothing
    else if s.busy then (if s.pending || s.cancelling then Requeue else CancelRequest)
    else if s.upFinishing then Requeue
    else if s.level == NL then AbortAtNull
    else if s.blocking == EX && (s.ex > 0 || s.ro > 0) then Requeue
    else if s.blocking == PR && s.ex > 0 then Requeue
    else if hold then Requeue
    else Work(HighestCompat(s.blocking))
  }

  function Aborted(s: LockState): LockState {
    s.(blocking := NL, blocked := false)
  }

  class LockResource {
    var level: Mode
    var requested: Mode
    var blocking: Mode
    var attached: bool
    var busy: bool
    var pending: bool
    var blocked: bool
    var upFinishing: bool
    var nonblockFinished: bool
    var action: Action
    var cancelling: bool
    var pendingGen: nat
    var roHolders: nat
    var exHolders: nat

    constructor ()
      ensures View() == Detached
    {
      level, requested, blocking := IV, IV, NL;
      attached, busy, pending, blocked, upFinishing, nonblockFinished := false, false, false, false, false, false;
      action, cancelling, pendingGen, roHolders, exHolders := NoAction, false, 0, 0, 0;
    }

    function View(): LockState
      reads this
    {
      LockState(level, requested, blocking, attached, busy, pending, blocked, upFinishing, nonblockFinished,
                action, cancelling, pendingGen, roHolders, exHolders)
    }

    method SetPending() returns (gen: nat)
      requires busy
      modifies `pending
      ensures pending && gen == pendingGen
    {
      pending := true;
      gen := pendingGen;
    }

    method ClearPending(gen: nat)
      modifies `pending, `pendingGen
      ensures View() == PendingCleared(old(View()), gen)
    {
      if !pending || pendingGen != gen {
        return;
      }
      pending := false;
      pendingGen := pendingGen + 1;
    }

    method HandleDownconvert()
      requires busy && attached && blocked && blocking > NL
      modifies this
      ensures View() == Downconverted(old(View()))
    {
      level := requested;
      if level <= HighestCompat(blocking) {
        blocking := NL;
        blocked := false;
      }
      busy := false;
    }

    method HandleConvert()
      requires busy && attached
      modifies this
      ensures View() == Converted(old(View()))
    {
      level := requested;
      if !nonblockFinished {
        upFinishing := true;
      } else {
        nonblockFinished := false;
      }
      busy := false;
    }

    method HandleAttach()
      requires busy && !attached
      modifies this
      ensures View() == Attached(old(View()))
    {
      level := requested;
      attached := true;
      busy := false;
    }

    /** The handlers' checks are its preconditions: no other action may be answered. */
    method LockingAst(again: bool)
      requires !again ==> busy && action != NoAction && (attached <==> action != Attach)
      requires !again && action == Downconvert ==> blocked && blocking > NL
      modifies this
      ensures View() == Answered(old(View()), again)
    {
      if again {
        busy := false;
      } else {
        match action {
          case Attach => HandleAttach();
          case Convert => HandleConvert();
          case Downconvert => HandleDownconvert();
        }
      }
      action := NoAction;
      if cancelling {
        cancelling := false;
      }
      ClearPending(pendingGen);
    }

    method HandleBast(wish: Mode) returns (needsDownconvert: bool)
      modifies `blocking, `blocked
      ensures View() == Wished(old(View()), wish)
      ensures wish in {PR, EX} && old(blocking) in {NL, PR, EX} ==> (needsDownconvert <==> wish > old(blocking))
    {
      needsDownconvert := false;
      if wish > blocking {
        if HighestCompat(wish) < HighestCompat(blocking) {
          needsDownconvert := true;
        }
        blocking := wish;
      }
      if needsDownconvert {
        blocked := true;
      }
    }

    /** One pass through the critical section of a local lock request. */
    method ClusterLock(wanted: Mode, giveUp: bool) returns (r: Outcome, gen: nat)
      requires wanted == PR || wanted == EX
      modifies this
      ensures View() == Tried(old(View()), wanted, giveUp)
      ensures r == if giveUp then MustWait else Decide(old(View()), wanted)
      ensures gen == pendingGen == old(pendingGen)
    {
      gen := pendingGen;
      if giveUp {
        upFinishing := false;
        return MustWait, gen;
      }
      if busy && wanted > level {
        upFinishing := false;
        return MustWait, gen;
      }
      if !(upFinishing && wanted <= level) {
        if blocked && !(wanted <= HighestCompat(blocking)) {
          upFinishing := false;
          return MustWait, gen;
        }
        if wanted > level {
          gen := Request(if !attached then Attach else Convert, wanted);
          return MustAsk, gen;
        }
      }
      IncHolders(wanted);
      return GotIt, gen;
    }

    method IncHolders(wanted: Mode)
      requires wanted == PR || wanted == EX
      modifies `exHolders, `roHolders, `upFinishing
      ensures !upFinishing
      ensures exHolders == old(exHolders) + if wanted == EX then 1 else 0
      ensures roHolders == old(roHolders) + if wanted == EX then 0 else 1
    {
      if wanted == EX {
        exHolders := exHolders + 1;
      } else {
        roHolders := roHolders + 1;
      }
      upFinishing := false;
    }

    method Request(what: Action, wanted: Mode) returns (gen: nat)
      modifies `action, `requested, `busy, `pending
      ensures View() == Requesting(old(View()), what, wanted) && gen == pendingGen
    {
      action := what;
      requested := wanted;
      busy := true;
      gen := SetPending();
    }

    /** The downconvert thread looks at the lock. */
    method UnblockLock(hold: bool) returns (p: Plan)
      requires blocked || blocking == NL
      requires blocked && !busy && !upFinishing && level == NL ==> exHolders == 0 && roHolders == 0
      modifies this
      ensures p == Consider(old(View()), hold)
      ensures View() == match p
        case CancelRequest => old(View()).(cancelling := true)
        case AbortAtNull => Aborted(old(View()))
        case _ => old(View())
    {
      if !blocked {
        return Nothing;
      }
      if busy {
        if pending || cancelling {
          return Requeue;
        }
        cancelling := true;
        return CancelRequest;
      }
      if upFinishing {
        return Requeue;
      }
      if level == NL {
        blocking := NL;
        blocked := false;
        return AbortAtNull;
      }
      if (blocking == EX && (exHolders > 0 || roHolders > 0)) || (blocking == PR && exHolders > 0) || hold {
        return Requeue;
      }
      return Work(HighestCompat(blocking));
    }

    method PrepareDownconvert(newLevel: Mode) returns (gen: nat)
      requires blocking > NL && level > newLevel
      modifies this
      ensures View() == Requesting(old(View()), Downconvert, newLevel) && gen == pendingGen
    {
      gen := Request(Downconvert, newLevel);
    }
  }
}

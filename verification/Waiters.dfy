/** The list of locks that wait for replies.  A lock can wait for an operation and, overlapping it, for a
    cancel and an unlock; a counter, a list and the reference count have to stay in step with that. */
module Waiters {

  datatype Msg = NoMsg | RequestMsg | LookupMsg | ConvertMsg | UnlockMsg | CancelMsg | NotifyMsg

  datatype ReplyMsg = RequestReply | LookupReply | ConvertReply | UnlockReply | CancelReply | NotifyReply

  datatype Status = Success | Invalid | Busy | Unexpected

  /** The part of a lock this is about; `refs` are the references held on behalf of the waiters list. */
  datatype Wait = Wait(kind: Msg, overlapUnlock: bool, overlapCancel: bool, count: int, listed: bool, refs: int)

  const NotWaiting := Wait(NoMsg, false, false, 0, false, 0)

  function One(b: bool): int {
    if b then 1 else 0
  }

  /** What the counter, the list and the references are meant to say. */
  predicate Accounted(w: Wait) {
    && w.count == One(w.kind != NoMsg) + One(w.overlapCancel) + One(w.overlapUnlock)
    && w.listed == (w.count > 0)
    && w.refs == w.count
  }

  // ----- what the two operations do to the account

  /** Sending a message that will be answered. */
  function Added(w: Wait, m: Msg): (Wait, Status) {
    if w.overlapUnlock || (w.overlapCancel && m == CancelMsg) then (w, Invalid)
    else if w.kind != NoMsg || w.overlapCancel then
      if m == UnlockMsg then (w.(overlapUnlock := true, count := w.count + 1, refs := w.refs + 1), Success)
      else if m == CancelMsg then (w.(overlapCancel := true, count := w.count + 1, refs := w.refs + 1), Success)
      else (w, Busy)
    else (w.(kind := m, count := w.count + 1, listed := true, refs := w.refs + 1), Success)
  }

  /** One wait less. */
  function Dropped(w: Wait): Wait {
    w.(count := w.count - 1, listed := if w.count == 1 then false else w.listed, refs := w.refs - 1)
  }

  /** The end of an overlapping operation; the one it overlapped is given up. */
  function OverlapDone(w: Wait): Wait {
    Dropped(if w.kind != NoMsg then w.(kind := NoMsg, count := w.count - 1, refs := w.refs - 1) else w)
  }

  /** A reply; `granted` says that it is a message with result zero. */
  function Removed(w: Wait, m: ReplyMsg, granted: bool): (Wait, Status) {
    if m == UnlockReply && w.overlapUnlock then (OverlapDone(w.(overlapUnlock := false)), Success)
    else if m == CancelReply && w.overlapCancel then (OverlapDone(w.(overlapCancel := false)), Success)
    else if m == CancelReply && w.kind != CancelMsg then (w, Unexpected)
    else if m == ConvertReply && w.kind == ConvertMsg && granted && w.overlapCancel then
      (Dropped(w.(overlapCancel := false, kind := NoMsg, count := w.count - 1, refs := w.refs - 1)), Success)
    else if w.kind != NoMsg || m == NotifyReply then (Dropped(w.(kind := NoMsg)), Success)
    else (w, Unexpected)
  }

  /** The counter the assertion in the removal looks at. */
  function CountAtAssert(w: Wait, m: ReplyMsg, granted: bool): int {
    Removed(w, m, granted).0.count + 1
  }

  lemma AddedAccounts(w: Wait, m: Msg)
    requires Accounted(w) && m != NoMsg
    ensures Accounted(Added(w, m).0)
    ensures Added(w, m).1 != Success ==> Added(w, m).0 == w
    ensures Added(w, m).1 == Success ==> Added(w, m).0.count == w.count + 1
    ensures Added(w, m).1 == Success && Added(w, m).0.kind != w.kind ==> w.count == 0
  {
  }

  /** The account stays right, and the assertion that something was counted holds, for every reply but one: a
      confirmation of an announcement nobody is waiting for. */
  lemma RemovedAccountsExactly(w: Wait, m: ReplyMsg, granted: bool)
    requires Accounted(w)
    ensures Accounted(Removed(w, m, granted).0) <==> !(m == NotifyReply && w.kind == NoMsg)
    ensures Removed(w, m, granted).1 == Success ==>
      (CountAtAssert(w, m, granted) > 0 <==> !(m == NotifyReply && w.count == 0))
  {
  }

  /** What a successful convert does to an overlapping cancel, and what the late cancel reply then finds. */
  lemma ZappedCancelIsOver(w: Wait, granted: bool)
    requires Accounted(w) && w.kind == ConvertMsg && w.overlapCancel
    ensures var z := Removed(w, ConvertReply, true).0;
      && z.kind == NoMsg && !z.overlapCancel && z.count == w.count - 2
      && Removed(z, CancelReply, granted) == (z, Unexpected)
  {
  }

  // ----- runs

  datatype Event = Send(msg: Msg) | Receive(reply: ReplyMsg, granted: bool)

  function After(w: Wait, e: Event): Wait {
    match e
    case Send(m) => Added(w, m).0
    case Receive(m, granted) => Removed(w, m, granted).0
  }

  /** Announcements are confirmed at most once. */
  predicate Expected(w: Wait, e: Event) {
    match e
    case Send(m) => m != NoMsg
    case Receive(m, _) => m == NotifyReply ==> w.kind != NoMsg
  }

  predicate IsRun(ws: seq<Wait>, es: seq<Event>) {
    && |ws| == |es| + 1 && ws[0] == NotWaiting
    && forall i :: 0 <= i < |es| ==> Expected(ws[i], es[i]) && ws[i + 1] == After(ws[i], es[i])
  }

  lemma {:induction false} EveryRunIsAccounted(ws: seq<Wait>, es: seq<Event>, n: nat)
    requires IsRun(ws, es) && n <= |es|
    ensures Accounted(ws[n])
  {
    if n > 0 {
      EveryRunIsAccounted(ws, es, n - 1);
      assert Expected(ws[n - 1], es[n - 1]) && ws[n] == After(ws[n - 1], es[n - 1]);
      match es[n - 1]
      case Send(m) => AddedAccounts(ws[n - 1], m);
      case Receive(m, granted) => RemovedAccountsExactly(ws[n - 1], m, granted);
    }
  }

  /** What sending a message does, over every run: the first wait is for it; an unlock or a cancel can overlap; and
      everything else is refused. */
  lemma SendsAreNoted(ws: seq<Wait>, es: seq<Event>, n: nat)
    requires IsRun(ws, es) && n < |es| && es[n].Send?
    ensures
      var w, z, m := ws[n], ws[n + 1], es[n].msg;
      var free := w.kind == NoMsg && !w.overlapCancel && !w.overlapUnlock;
      && z.kind == (if free then m else w.kind)
      && z.overlapUnlock == (w.overlapUnlock || (!free && m == UnlockMsg))
      && z.overlapCancel == (w.overlapCancel || (!free && !w.overlapUnlock && m == CancelMsg))
      && (Added(w, m).1 == Success <==> z.count == w.count + 1)
      && (Added(w, m).1 == Invalid <==> w.overlapUnlock || (w.overlapCancel && m == CancelMsg))
      && Added(w, m).1 != Unexpected
  {
    assert Expected(ws[n], es[n]) && ws[n + 1] == After(ws[n], es[n]);
  }

  /** Which reply ends which wait, over every run.  An overlapping unlock or cancel ends with its own reply only, but
      for a cancel that a granted conversion makes moot; the wait it overlaps ends with it.  A late reply to a cancel
      that is over leaves a newer operation waiting. */
  lemma RepliesEndWaits(ws: seq<Wait>, es: seq<Event>, n: nat)
    requires IsRun(ws, es) && n < |es| && es[n].Receive?
    ensures
      var w, z, m := ws[n], ws[n + 1], es[n].reply;
      && z.kind == (if m == CancelReply && w.kind != CancelMsg && !w.overlapCancel then w.kind else NoMsg)
      && z.overlapUnlock == (w.overlapUnlock && m != UnlockReply)
      && z.overlapCancel
         == (w.overlapCancel && m != CancelReply && !(m == ConvertReply && w.kind == ConvertMsg && es[n].granted))
      && (Removed(w, m, es[n].granted).1 == Success <==> z.count < w.count)
      && (Removed(w, m, es[n].granted).1 != Success ==> Removed(w, m, es[n].granted).1 == Unexpected && z == w)
  {
    assert Expected(ws[n], es[n]) && ws[n + 1] == After(ws[n], es[n]);
  }

  // ----- the lock block and the list

  class Lkb {
    var waitType: Msg
    var waitCount: int
    var overlapUnlock: bool
    var overlapCancel: bool
    var refs: int

    constructor ()
      ensures waitType == NoMsg && waitCount == 0 && !overlapUnlock && !overlapCancel && refs == 0
    {
      waitType, waitCount, refs := NoMsg, 0, 0;
      overlapUnlock, overlapCancel := false, false;
    }
  }

  class Lockspace {
    var waiters: seq<Lkb>

    constructor ()
      ensures waiters == []
    {
      waiters := [];
    }

    ghost function Of(lkb: Lkb): Wait
      reads this, lkb
    {
      Wait(lkb.waitType, lkb.overlapUnlock, lkb.overlapCancel, lkb.waitCount, lkb in waiters, lkb.refs)
    }

    ghost predicate Valid()
      reads this
    {
      forall i, j :: 0 <= i < j < |waiters| ==> waiters[i] != waiters[j]
    }

    method AddToWaiters(lkb: Lkb, m: Msg) returns (error: Status)
      requires Valid() && Accounted(Of(lkb)) && m != NoMsg
      modifies this, lkb
      ensures Valid() && Accounted(Of(lkb))
      ensures (Of(lkb), error) == Added(old(Of(lkb)), m)
      ensures forall x :: x != lkb ==> (x in waiters <==> x in old(waiters))
    {
      if lkb.overlapUnlock || (lkb.overlapCancel && m == CancelMsg) {
        return Invalid;
      }
      if lkb.waitType != NoMsg || lkb.overlapCancel {
        if m == UnlockMsg {
          lkb.overlapUnlock := true;
        } else if m == CancelMsg {
          lkb.overlapCancel := true;
        } else {
          return Busy;
        }
        lkb.waitCount := lkb.waitCount + 1;
        lkb.refs := lkb.refs + 1;
        return Success;
      }
      var wc := lkb.waitCount;
      lkb.waitCount := wc + 1;
      assert wc == 0;
      lkb.waitType := m;
      lkb.refs := lkb.refs + 1;
      waiters := [lkb] + waiters;
      return Success;
    }

    method Unlink(lkb: Lkb)
      requires Valid()
      modifies this
      ensures Valid() && lkb !in waiters
      ensures forall x :: x != lkb ==> (x in waiters <==> x in old(waiters))
    {
      var i := 0;
      while i < |waiters| && waiters[i] != lkb
        invariant i <= |waiters| && lkb !in waiters[..i]
      {
        i := i + 1;
      }
      if i < |waiters| {
        ghost var was := waiters;
        waiters := waiters[..i] + waiters[i + 1..];
        assert was == was[..i] + [lkb] + was[i + 1..];
        assert lkb !in was[i + 1..];
      }
    }

    method RemoveFromWaiters(lkb: Lkb, m: ReplyMsg, granted: bool) returns (error: Status)
      requires Valid() && Accounted(Of(lkb))
      requires m == NotifyReply ==> lkb.waitType != NoMsg
      modifies this, lkb
      ensures Valid() && Accounted(Of(lkb))
      ensures (Of(lkb), error) == Removed(old(Of(lkb)), m, granted)
      ensures forall x :: x != lkb ==> (x in waiters <==> x in old(waiters))
    {
      var overlapDone := false;
      if m == UnlockReply && lkb.overlapUnlock {
        lkb.overlapUnlock := false;
        overlapDone := true;
      } else if m == CancelReply && lkb.overlapCancel {
        lkb.overlapCancel := false;
        overlapDone := true;
      } else if m == CancelReply && lkb.waitType != CancelMsg {
        return Unexpected;
      } else if m == ConvertReply && lkb.waitType == ConvertMsg && granted && lkb.overlapCancel {
        lkb.overlapCancel := false;
        lkb.waitType := NoMsg;
        lkb.waitCount := lkb.waitCount - 1;
        lkb.refs := lkb.refs - 1;
      } else if lkb.waitType != NoMsg || m == NotifyReply {
        lkb.waitType := NoMsg;
      } else {
        return Unexpected;
      }
      if overlapDone && lkb.waitType != NoMsg {
        lkb.waitCount := lkb.waitCount - 1;
        lkb.refs := lkb.refs - 1;
        lkb.waitType := NoMsg;
      }
      assert lkb.waitCount != 0;
      lkb.waitCount := lkb.waitCount - 1;
      if lkb.waitCount == 0 {
        Unlink(lkb);
      }
      lkb.refs := lkb.refs - 1;
      return Success;
    }
  }
}

/** Whole histories of one resource: any sequence of requests, conversions, unlocks and cancels. */
module Runs {
  import opened Modes
  import opened Resource
  import opened Shape
  import opened Safety
  import opened Evolution
  import opened Operations
  import opened Quiescence
  import opened NoLostGrant
  import opened KeptLocks
  import opened Order

  datatype Op = Request(id: LkId, mode: Mode, flags: Flags)
              | Convert(id: LkId, mode: Mode, flags: Flags)
              | Unlock(id: LkId)
              | Cancel(id: LkId)

  function Apply(r: Res, op: Op): Outcome
    requires Live(r.convert)
  {
    match op
    case Request(id, mode, f) => DoRequest(r, Fresh(id, mode, f))
    case Convert(id, mode, f) => DoConvert(r, id, mode, f)
    case Unlock(id) => DoUnlock(r, id)
    case Cancel(id) => DoCancel(r, id)
  }

  /** What the argument checks let through.  A conversion of a lock that is not granted is legal; the
      resource answers that the lock is busy. */
  ghost predicate Legal(r: Res, op: Op) {
    match op
    case Request(id, mode, f) => Lookup(r, id) == None && RequestArgs(mode, f)
    case Convert(id, mode, f) => mode >= NL && !f.expedite &&
      (Lookup(r, id).Some? && Lookup(r, id).value.status == Granted ==>
        ConvertArgs(Lookup(r, id).value.lock.gr, mode, f))
    case Unlock(_) => true
    case Cancel(_) => true
  }

  ghost predicate IsRun(rs: seq<Res>, ops: seq<Op>) {
    && |rs| == |ops| + 1 && rs[0] == EmptyRes
    && forall i :: 0 <= i < |ops| ==> Step(rs[i], ops[i], rs[i + 1])
  }

  ghost predicate Step(r: Res, op: Op, s: Res) {
    Live(r.convert) && Legal(r, op) && s == Apply(r, op).res
  }

  lemma RunGrows(rs: seq<Res>, ops: seq<Op>, op: Op, s: Res)
    requires IsRun(rs, ops) && Step(rs[|ops|], op, s)
    ensures IsRun(rs + [s], ops + [op])
  {
  }

  /** Pairwise compatibility over every run, whatever flags are used. */
  lemma {:induction false} EveryRunIsSafe(rs: seq<Res>, ops: seq<Op>, n: nat)
    requires IsRun(rs, ops) && n <= |ops|
    ensures Safe(rs[n])
  {
    if n > 0 {
      EveryRunIsSafe(rs, ops, n - 1);
      assert Step(rs[n - 1], ops[n - 1], rs[n]);
      StepSafe(rs[n - 1], ops[n - 1]);
    }
  }

  lemma StepSafe(r: Res, op: Op)
    requires Safe(r) && Legal(r, op)
    ensures Safe(Apply(r, op).res)
  {
    match op
    case Request(id, mode, f) => RequestSafe(r, Fresh(id, mode, f));
    case Convert(id, mode, f) => ConvertSafe(r, id, mode, f);
    case Unlock(id) => UnlockSafe(r, id);
    case Cancel(id) => CancelSafe(r, id);
  }

  lemma StepTidy(r: Res, op: Op)
    requires Tidy(r) && Legal(r, op)
    ensures Tidy(Apply(r, op).res)
  {
    match op
    case Request(id, mode, f) => RequestTidy(r, Fresh(id, mode, f));
    case Convert(id, mode, f) => ConvertTidy(r, id, mode, f);
    case Unlock(id) => UnlockTidy(r, id);
    case Cancel(id) => CancelTidy(r, id);
  }

  lemma {:induction false} EveryRunIsTidy(rs: seq<Res>, ops: seq<Op>, n: nat)
    requires IsRun(rs, ops) && n <= |ops|
    ensures Tidy(rs[n])
  {
    if n > 0 {
      EveryRunIsTidy(rs, ops, n - 1);
      assert Step(rs[n - 1], ops[n - 1], rs[n]);
      StepTidy(rs[n - 1], ops[n - 1]);
    }
  }

  /** No conversion can be queued with the mode it has as its alternative. */
  ghost predicate KeepingRun(ops: seq<Op>) {
    forall op :: op in ops && op.Convert? ==> KeepsLock(op.mode, op.flags)
  }

  lemma StepSound(r: Res, op: Op)
    requires Sound(r) && Stuck(r) && Legal(r, op) && (op.Convert? ==> KeepsLock(op.mode, op.flags))
    ensures Sound(Apply(r, op).res)
  {
    match op
    case Request(id, mode, f) => RequestEvolves(r, Fresh(id, mode, f));
    case Convert(id, mode, f) => if Has(r.grant, id) { ConvertEvolves(r, id, mode, f); }
    case Unlock(id) => if Known(r, id) { UnlockEvolves(r, id); }
    case Cancel(id) => CancelSound(r, id);
  }

  lemma StepStuck(r: Res, op: Op)
    requires Sound(r) && Stuck(r) && Legal(r, op) && (op.Convert? ==> KeepsLock(op.mode, op.flags))
    ensures Stuck(Apply(r, op).res)
  {
    match op
    case Request(id, mode, f) => RequestStuck(r, Fresh(id, mode, f));
    case Convert(id, mode, f) => if Has(r.grant, id) { ConvertStuck(r, id, mode, f); }
    case Unlock(id) => UnlockStuck(r, id);
    case Cancel(id) => CancelStuck(r, id);
  }

  /** In every state of every such run each granted lock has a mode, and each queued conversion has one and asks
      for another, with an alternative, if any, that would be another still. */
  lemma {:induction false} EveryKeepingRunIsSound(rs: seq<Res>, ops: seq<Op>, n: nat)
    requires IsRun(rs, ops) && KeepingRun(ops) && n <= |ops|
    ensures Sound(rs[n]) && Stuck(rs[n])
  {
    if n > 0 {
      EveryKeepingRunIsSound(rs, ops, n - 1);
      assert Step(rs[n - 1], ops[n - 1], rs[n]);
      StepSound(rs[n - 1], ops[n - 1]);
      StepStuck(rs[n - 1], ops[n - 1]);
    }
  }

  // ----- no lost grant

  ghost predicate NoNoorder(ops: seq<Op>) {
    forall op :: op in ops && op.Request? ==> !op.flags.noorder
  }

  predicate OrderlyOp(op: Op) {
    (op.Request? ==> OrderlyRequest(op.flags)) && (op.Convert? ==> OrderlyConvert(op.mode, op.flags))
  }

  /** No operation can queue a lock that is free to go; and demoting conversions are not mixed with
      requests that ignore the queues. */
  ghost predicate OrderlyRun(ops: seq<Op>) {
    && (forall op :: op in ops ==> OrderlyOp(op))
    && (NoNoorder(ops) || forall op :: op in ops && op.Convert? ==> !op.flags.convdeadlk)
  }

  /** Whatever is queued in `s`, other than `id`, was queued in `r`, on the same queue with the same flags. */
  ghost predicate Inherits(r: Res, s: Res, id: LkId) {
    forall st, x :: st != Granted && On(s, st, x) && x.id != id ==>
      exists y :: On(r, st, y) && y.id == x.id && y.flags == x.flags
  }

  lemma InheritsFrom(r: Res, s: Res, id: LkId, grants: seq<LkId>)
    requires WellShaped(r) && WellShaped(s)
    requires forall x :: x != id ==> Change(Lookup(r, x), Lookup(s, x), x in grants)
    ensures Inherits(r, s, id)
  {
    forall st, x | st != Granted && On(s, st, x) && x.id != id
      ensures exists y :: On(r, st, y) && y.id == x.id && y.flags == x.flags {
      LookupOn(s, st, x);
      assert Change(Lookup(r, x.id), Lookup(s, x.id), x.id in grants);
      var y := Lookup(r, x.id).value.lock;
      LookupOn(r, st, y);
    }
  }

  /** A queued lock was queued before, or is the one operated on, with the flags just given. */
  lemma StepInherits(r: Res, op: Op)
    requires Sound(r) && Stuck(r) && Legal(r, op) && (op.Convert? ==> KeepsLock(op.mode, op.flags))
    ensures
      var s := Apply(r, op).res;
      && Inherits(r, s, op.id)
      && forall st, x :: st != Granted && On(s, st, x) && x.id == op.id ==>
           || (exists y :: On(r, st, y) && y.id == x.id && y.flags == x.flags)
           || (op.Request? && st == Waiting && x.flags == op.flags)
           || (op.Convert? && st == Converting && x.flags == op.flags)
  {
    match op
    case Request(id, mode, f) => RequestInherits(r, id, mode, f);
    case Convert(id, mode, f) => if Has(r.grant, id) { ConvertInherits(r, id, mode, f); }
    case Unlock(id) => if Known(r, id) { UnlockInherits(r, id); }
    case Cancel(id) => CancelInherits(r, id);
  }

  lemma RequestInherits(r: Res, id: LkId, mode: Mode, f: Flags)
    requires Sound(r) && Legal(r, Request(id, mode, f))
    ensures var s := DoRequest(r, Fresh(id, mode, f)).res;
      && Inherits(r, s, id)
      && forall st, x :: st != Granted && On(s, st, x) && x.id == id ==> st == Waiting && x.flags == f
  {
    var o := DoRequest(r, Fresh(id, mode, f));
    RequestEvolves(r, Fresh(id, mode, f));
    InheritsFrom(r, o.res, id, []);
    OwnEntry(o.res, id);
  }

  lemma ConvertInherits(r: Res, id: LkId, mode: Mode, f: Flags)
    requires Sound(r) && Stuck(r) && Legal(r, Convert(id, mode, f)) && KeepsLock(mode, f) && Has(r.grant, id)
    ensures var s := DoConvert(r, id, mode, f).res;
      && Inherits(r, s, id)
      && forall st, x :: st != Granted && On(s, st, x) && x.id == id ==> st == Converting && x.flags == f
  {
    var o := DoConvert(r, id, mode, f);
    ConvertEvolves(r, id, mode, f);
    InheritsFrom(r, o.res, id, o.before + o.after);
    OwnEntry(o.res, id);
  }

  lemma UnlockInherits(r: Res, id: LkId)
    requires Sound(r) && Known(r, id)
    ensures var s := DoUnlock(r, id).res;
      Inherits(r, s, id) && forall st, x :: On(s, st, x) ==> x.id != id
  {
    var o := DoUnlock(r, id);
    UnlockEvolves(r, id);
    InheritsFrom(r, o.res, id, o.after);
    OwnEntry(o.res, id);
  }

  lemma OwnEntry(s: Res, id: LkId)
    requires WellShaped(s)
    ensures forall st, x :: On(s, st, x) && x.id == id ==> Lookup(s, id) == Some(Entry(st, x))
  {
    forall st, x | On(s, st, x) && x.id == id ensures Lookup(s, id) == Some(Entry(st, x)) {
      LookupOn(s, st, x);
    }
  }

  lemma CancelInherits(r: Res, id: LkId)
    requires Sound(r)
    ensures forall st, x :: st != Granted && On(DoCancel(r, id).res, st, x) ==>
      exists y :: On(r, st, y) && y.id == x.id && y.flags == x.flags
  {
    if Has(r.grant, id) {
    } else if Has(r.convert, id) {
      DropMembers(r.convert, id);
      RevertSound(r, id);
      var l := r.convert[Index(r.convert, id)].(rq := IV);
      SettleInherits(r, r.(grant := InsertOrdered(r.grant, l, l.gr), convert := Drop(r.convert, id)));
    } else if Has(r.wait, id) {
      DropMembers(r.wait, id);
      DropSafe(r, id);
      SettleInherits(r, r.(wait := Drop(r.wait, id)));
    }
  }

  lemma SettleInherits(r: Res, s: Res)
    requires Sound(s) && (forall x :: x in s.convert ==> x in r.convert) && (forall x :: x in s.wait ==> x in r.wait)
    ensures forall st, x :: st != Granted && On(SettleAll(s).res, st, x) ==>
      exists y :: On(r, st, y) && y.id == x.id && y.flags == x.flags
  {
    SettleAllEvolves(s);
    var t := SettleAll(s);
    forall st, x | st != Granted && On(t.res, st, x)
      ensures exists y :: On(r, st, y) && y.id == x.id && y.flags == x.flags {
      LookupOn(t.res, st, x);
      assert Change(Lookup(s, x.id), Lookup(t.res, x.id), x.id in t.grants);
      var y := Lookup(s, x.id).value.lock;
      LookupOn(s, st, y);
      assert On(r, st, y);
    }
  }

  /** The operation leaves a lock queued that could be granted. */
  ghost predicate Loses(r: Res, op: Op)
    requires Live(r.convert)
  {
    match op
    case Request(id, mode, f) => JumpsAhead(r, Fresh(id, mode, f))
    case Convert(id, mode, f) => Has(r.grant, id) && ConversionLoses(r, id, mode, f)
    case _ => false
  }

  ghost predicate ConversionLoses(r: Res, id: LkId, mode: Mode, f: Flags)
    requires Live(r.convert) && Has(r.grant, id)
  {
    var l := SetConvert(r.grant[Index(r.grant, id)], mode, f);
    LosesAGrant(r.(grant := Replace(r.grant, l)), l)
  }

  lemma StepQuietExactly(r: Res, op: Op)
    requires Tidy(r) && Quiet(r) && Legal(r, op)
    ensures Quiet(Apply(r, op).res) <==> !Loses(r, op)
  {
    match op
    case Request(id, mode, f) => RequestQuietExactly(r, Fresh(id, mode, f));
    case Convert(id, mode, f) => if Has(r.grant, id) { ConvertQuietExactly(r, id, mode, f); }
    case Unlock(id) => UnlockQuiet(r, id);
    case Cancel(id) => CancelQuiet(r, id);
  }

  /** In a run, whatever flags are used, nothing that is queued could ever be granted exactly if no operation loses
      a grant. */
  lemma {:induction false} RunsAreQuietExactly(rs: seq<Res>, ops: seq<Op>, n: nat)
    requires IsRun(rs, ops) && n <= |ops|
    ensures (forall k :: 0 <= k <= n ==> Quiet(rs[k]))
      <==> (forall k :: 0 <= k < n ==> Live(rs[k].convert) && !Loses(rs[k], ops[k]))
  {
    if n > 0 {
      RunsAreQuietExactly(rs, ops, n - 1);
      EveryRunIsTidy(rs, ops, n - 1);
      assert Step(rs[n - 1], ops[n - 1], rs[n]) && ops[n - 1] in ops;
      if Quiet(rs[n - 1]) {
        StepQuietExactly(rs[n - 1], ops[n - 1]);
      }
    }
  }

  /** An operation that re-examines the queues leaves nothing grantable, whatever was there before. */
  lemma StepSettles(r: Res, op: Op)
    requires Tidy(r) && Legal(r, op)
    requires var rc := Apply(r, op).rc; rc == Unlocked || rc == Cancelled || (op.Convert? && rc == Ok)
    ensures Quiet(Apply(r, op).res)
  {
    match op
    case Convert(id, mode, f) => ConvertSettles(r, id, mode, f);
    case Unlock(id) => UnlockSettles(r, id);
    case Cancel(id) => CancelSettles(r, id);
    case Request(_, _, _) =>
  }

  lemma UnlockSettles(r: Res, id: LkId)
    requires Tidy(r) && Known(r, id)
    ensures Quiet(DoUnlock(r, id).res)
  {
    DropTidy(r, id);
    SettleAllQuiet(Res(Drop(r.grant, id), Drop(r.convert, id), Drop(r.wait, id)));
  }

  lemma CancelSettles(r: Res, id: LkId)
    requires Tidy(r) && !Has(r.grant, id) && Known(r, id)
    ensures Quiet(DoCancel(r, id).res)
  {
    if Has(r.convert, id) {
      RevertTidy(r, id);
      var l := r.convert[Index(r.convert, id)].(rq := IV);
      SettleAllQuiet(r.(grant := InsertOrdered(r.grant, l, l.gr), convert := Drop(r.convert, id)));
    } else {
      DropTidy(r, id);
      SettleAllQuiet(r.(wait := Drop(r.wait, id)));
    }
  }

  lemma ConvertSettles(r: Res, id: LkId, mode: Mode, f: Flags)
    requires Tidy(r) && mode >= NL && !f.expedite && DoConvert(r, id, mode, f).rc == Ok
    ensures Quiet(DoConvert(r, id, mode, f).res)
  {
    var l0 := r.grant[Index(r.grant, id)];
    var l := SetConvert(l0, mode, f);
    RewriteTidy(r, l0, l);
    GrantedNowTidy(r.(grant := Replace(r.grant, l)), l);
    SettleAllQuiet(ConvertNow(r.(grant := Replace(r.grant, l)), l).res);
  }

  /** Over every run and all flags: an unlock, a cancel that takes something back, or a granted conversion leaves
      nothing queued that could be granted, even if an earlier operation had lost a grant. */
  lemma LostGrantsAreFound(rs: seq<Res>, ops: seq<Op>, n: nat)
    requires IsRun(rs, ops) && n < |ops| && Live(rs[n].convert)
    requires var rc := Apply(rs[n], ops[n]).rc; rc == Unlocked || rc == Cancelled || (ops[n].Convert? && rc == Ok)
    ensures Quiet(rs[n + 1])
  {
    EveryRunIsTidy(rs, ops, n);
    assert Step(rs[n], ops[n], rs[n + 1]);
    StepSettles(rs[n], ops[n]);
  }

  lemma StepQuiet(r: Res, op: Op, s: Res)
    requires Tidy(r) && Quiet(r) && Step(r, op, s) && OrderlyOp(op)
    requires op.Convert? && op.flags.convdeadlk ==> forall w :: w in r.wait ==> !w.flags.noorder
    ensures Quiet(s)
  {
    match op
    case Request(id, mode, f) => RequestQuiet(r, Fresh(id, mode, f));
    case Convert(id, mode, f) => ConvertQuiet(r, id, mode, f);
    case Unlock(id) => UnlockQuiet(r, id);
    case Cancel(id) => CancelQuiet(r, id);
  }

  /** Re-examining the queues adds no waiter. */
  lemma {:induction false} WaitPassWaiters(r: Res, i: nat)
    requires Safe(r)
    ensures forall w :: w in WaitPass(r, i).res.wait ==> w in r.wait
    decreases |r.wait| - i
  {
    if i < |r.wait| {
      var l := r.wait[i];
      var v := Judge(r, l, false);
      assert l in r.wait;
      if v.granted {
        GrantWaitSafe(r, i, v.lock);
        DropAtMembers(r.wait, i);
        WaitPassWaiters(GrantWait(r, i, v.lock), i);
      } else {
        assert r.wait[i := v.lock] == r.wait;
        assert r.(wait := r.wait[i := v.lock]) == r;
        WaitPassWaiters(r, i + 1);
      }
    }
  }

  lemma SettleAllWaiters(r: Res)
    requires Safe(r)
    ensures forall w :: w in SettleAll(r).res.wait ==> w in r.wait
  {
    SettleConvertSafe(r, false);
    WaitPassWaiters(SettleConvert(r, false).res, 0);
  }

  /** A lock that waits was waiting before, or has just been requested. */
  lemma StepWaiters(r: Res, op: Op)
    requires Tidy(r) && Legal(r, op)
    ensures forall w :: w in Apply(r, op).res.wait ==> w in r.wait || (op.Request? && w.flags == op.flags)
  {
    match op
    case Request(id, mode, f) =>
    case Convert(id, mode, f) => ConvertWaiters(r, id, mode, f);
    case Unlock(id) =>
      DropTidy(r, id);
      DropMembers(r.wait, id);
      SettleAllWaiters(Res(Drop(r.grant, id), Drop(r.convert, id), Drop(r.wait, id)));
    case Cancel(id) => CancelWaiters(r, id);
  }

  lemma ConvertWaiters(r: Res, id: LkId, mode: Mode, f: Flags)
    requires Tidy(r) && mode >= NL && !f.expedite
    ensures forall w :: w in DoConvert(r, id, mode, f).res.wait ==> w in r.wait
  {
    if Has(r.grant, id) {
      var l0 := r.grant[Index(r.grant, id)];
      var l := SetConvert(l0, mode, f);
      RewriteTidy(r, l0, l);
      var r1 := r.(grant := Replace(r.grant, l));
      ConvertNowSafe(r1, l);
      NowKeepsWaiters(r1, l);
      if ConvertNow(r1, l).rc == Ok {
        SettleAllWaiters(ConvertNow(r1, l).res);
      }
    }
  }

  lemma NowKeepsWaiters(r: Res, l: Lock)
    requires Live(r.convert)
    ensures ConvertNow(r, l).res.wait == r.wait
  {
  }

  lemma CancelWaiters(r: Res, id: LkId)
    requires Tidy(r)
    ensures forall w :: w in DoCancel(r, id).res.wait ==> w in r.wait
  {
    DropMembers(r.wait, id);
    if Has(r.grant, id) {
    } else if Has(r.convert, id) {
      RevertTidy(r, id);
      var l := r.convert[Index(r.convert, id)].(rq := IV);
      SettleAllWaiters(r.(grant := InsertOrdered(r.grant, l, l.gr), convert := Drop(r.convert, id)));
    } else if Has(r.wait, id) {
      DropTidy(r, id);
      SettleAllWaiters(r.(wait := Drop(r.wait, id)));
    }
  }

  lemma {:induction false} NobodyIgnoresTheQueue(rs: seq<Res>, ops: seq<Op>, n: nat)
    requires IsRun(rs, ops) && NoNoorder(ops) && n <= |ops|
    ensures forall w :: w in rs[n].wait ==> !w.flags.noorder
  {
    if n > 0 {
      NobodyIgnoresTheQueue(rs, ops, n - 1);
      EveryRunIsTidy(rs, ops, n - 1);
      assert Step(rs[n - 1], ops[n - 1], rs[n]) && ops[n - 1] in ops;
      StepWaiters(rs[n - 1], ops[n - 1]);
    }
  }

  /** In every state of every orderly run, nothing that is queued could be granted. */
  lemma {:induction false} NoGrantIsEverLost(rs: seq<Res>, ops: seq<Op>, n: nat)
    requires IsRun(rs, ops) && OrderlyRun(ops) && n <= |ops|
    ensures Quiet(rs[n])
  {
    if n > 0 {
      NoGrantIsEverLost(rs, ops, n - 1);
      OrderlyStep(rs, ops, n - 1);
    }
  }

  lemma OrderlyStep(rs: seq<Res>, ops: seq<Op>, n: nat)
    requires IsRun(rs, ops) && OrderlyRun(ops) && n < |ops| && Quiet(rs[n])
    ensures Quiet(rs[n + 1])
  {
    EveryRunIsTidy(rs, ops, n);
    assert Step(rs[n], ops[n], rs[n + 1]) && ops[n] in ops;
    if NoNoorder(ops) {
      NobodyIgnoresTheQueue(rs, ops, n);
    }
    StepQuiet(rs[n], ops[n], rs[n + 1]);
  }

  // ----- no deadlock between queued conversions

  ghost predicate QueueDisciplined(ops: seq<Op>) {
    forall op :: op in ops && op.Convert? ==> !op.flags.headque && !op.flags.nodlckwt
  }

  /** In every state of every such run, no queued conversion is in a deadlock with another, so the pending
      demotions the source warns about cannot happen. */
  lemma {:induction false} NoConversionDeadlockIsQueued(rs: seq<Res>, ops: seq<Op>, n: nat)
    requires IsRun(rs, ops) && QueueDisciplined(ops) && n <= |ops|
    ensures Ordered(rs[n].convert)
    ensures forall l :: l in rs[n].convert ==> !Deadlocks(rs[n].convert, l, false)
    ensures rs[n].convert != [] ==> !Conflicts(rs[n].convert, rs[n].convert[0])
  {
    if n > 0 {
      var r, op := rs[n - 1], ops[n - 1];
      NoConversionDeadlockIsQueued(rs, ops, n - 1);
      EveryKeepingRunIsSound(rs, ops, n - 1);
      assert Step(r, op, rs[n]) && op in ops;
      StepOrdered(r, op);
    }
    EveryKeepingRunIsSound(rs, ops, n);
    NoQueuedDeadlock(rs[n]);
  }

  lemma DropOrdered(q: seq<Lock>, id: LkId)
    requires Ordered(q)
    ensures Ordered(Drop(q, id))
  {
  }

  lemma SettleKeepsOrdered(r: Res)
    requires Sound(r) && Ordered(r.convert)
    ensures Ordered(SettleAll(r).res.convert)
  {
    SettleConvertOrdered(r, false);
  }

  lemma StepOrdered(r: Res, op: Op)
    requires Sound(r) && Stuck(r) && Legal(r, op) && Ordered(r.convert)
    requires op.Convert? ==> !op.flags.headque && !op.flags.nodlckwt
    ensures Ordered(Apply(r, op).res.convert)
  {
    match op
    case Request(id, mode, f) =>
    case Convert(id, mode, f) => ConvertOrdered(r, id, mode, f);
    case Unlock(id) => UnlockOrdered(r, id);
    case Cancel(id) => CancelOrdered(r, id);
  }

  lemma DropSound(r: Res, id: LkId)
    requires Sound(r)
    ensures Sound(Res(Drop(r.grant, id), Drop(r.convert, id), Drop(r.wait, id)))
    ensures Sound(r.(wait := Drop(r.wait, id)))
  {
    DropSafe(r, id);
    DropMembers(r.grant, id);
    DropMembers(r.convert, id);
  }

  lemma UnlockOrdered(r: Res, id: LkId)
    requires Sound(r) && Ordered(r.convert)
    ensures Ordered(DoUnlock(r, id).res.convert)
  {
    DropSound(r, id);
    DropOrdered(r.convert, id);
    SettleKeepsOrdered(Res(Drop(r.grant, id), Drop(r.convert, id), Drop(r.wait, id)));
  }

  lemma CancelOrdered(r: Res, id: LkId)
    requires Sound(r) && Ordered(r.convert)
    ensures Ordered(DoCancel(r, id).res.convert)
  {
    DropOrdered(r.convert, id);
    if Has(r.grant, id) {
    } else if Has(r.convert, id) {
      RevertSound(r, id);
      var l := r.convert[Index(r.convert, id)].(rq := IV);
      SettleKeepsOrdered(r.(grant := InsertOrdered(r.grant, l, l.gr), convert := Drop(r.convert, id)));
    } else if Has(r.wait, id) {
      DropSound(r, id);
      SettleKeepsOrdered(r.(wait := Drop(r.wait, id)));
    }
  }
}

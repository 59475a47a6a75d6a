/** When does an operation leave something queued that could be granted?  The answer is exact for each operation
    and for all flags. */
module NoLostGrant {
  import opened Modes
  import opened Resource
  import opened Shape
  import opened Safety
  import opened Evolution
  import opened Operations
  import opened Quiescence

  /** Flags of a request that cannot jump a queue it is not also free to ignore. */
  predicate OrderlyRequest(f: Flags) {
    f.headque ==> f.noorder
  }

  /** Flags of a conversion that cannot be made to wait behind the queue and then be first on it, and cannot be
      queued before the alternative has been tried. */
  predicate OrderlyConvert(mode: Mode, f: Flags) {
    && (f.quecvt ==> !f.headque && !f.noorder)
    && (PlainConvert(mode, f) || !(f.convdeadlk || (f.nodlckwt && f.headque)))
  }

  // ----- what every operation keeps

  lemma RewriteTidy(r: Res, l: Lock, m: Lock)
    requires Tidy(r) && l in r.grant && m.id == l.id && (m.gr == l.gr || m.gr == NL)
    ensures Tidy(r.(grant := Replace(r.grant, m))) && m in Replace(r.grant, m)
  {
    RewriteSafe(r, l, m);
  }

  lemma DropTidy(r: Res, id: LkId)
    requires Tidy(r)
    ensures Tidy(Res(Drop(r.grant, id), Drop(r.convert, id), Drop(r.wait, id)))
    ensures Tidy(r.(wait := Drop(r.wait, id)))
  {
    DropSafe(r, id);
    DropMembers(r.convert, id);
  }

  lemma RevertTidy(r: Res, id: LkId)
    requires Tidy(r) && Has(r.convert, id)
    ensures
      var l := r.convert[Index(r.convert, id)].(rq := IV);
      Tidy(r.(grant := InsertOrdered(r.grant, l, l.gr), convert := Drop(r.convert, id)))
  {
    var l0 := r.convert[Index(r.convert, id)];
    var l := l0.(rq := IV);
    var s := r.(grant := InsertOrdered(r.grant, l, l.gr), convert := Drop(r.convert, id));
    RevertTakesBack(r, id);
    assert WellShaped(s) && Holds(r, l0);
    StillCompatible(r, s, l0, l);
  }

  lemma RequestTidy(r: Res, l: Lock)
    requires Tidy(r) && Lookup(r, l.id) == None && l.gr == IV && RequestArgs(l.rq, l.flags)
    ensures Tidy(DoRequest(r, l).res)
  {
    RequestSafe(r, l);
  }

  lemma UnlockTidy(r: Res, id: LkId)
    requires Tidy(r)
    ensures Tidy(DoUnlock(r, id).res)
  {
    DropTidy(r, id);
    SettleAllTidy(Res(Drop(r.grant, id), Drop(r.convert, id), Drop(r.wait, id)));
  }

  lemma CancelTidy(r: Res, id: LkId)
    requires Tidy(r)
    ensures Tidy(DoCancel(r, id).res)
  {
    if Has(r.grant, id) {
      var l := r.grant[Index(r.grant, id)];
      RewriteTidy(r, l, l.(rq := IV));
    } else if Has(r.convert, id) {
      RevertTidy(r, id);
      var l := r.convert[Index(r.convert, id)].(rq := IV);
      SettleAllTidy(r.(grant := InsertOrdered(r.grant, l, l.gr), convert := Drop(r.convert, id)));
    } else if Has(r.wait, id) {
      DropTidy(r, id);
      SettleAllTidy(r.(wait := Drop(r.wait, id)));
    }
  }

  lemma RefusedIsQueueable(r: Res, l: Lock)
    requires Safe(r) && l in r.grant && ConvertArgs(l.gr, l.rq, l.flags) && !l.demoted && !Judge(r, l, true).granted
    ensures l.flags.noqueue || Queueable(Judge(r, l, true).lock)
  {
    if l.gr != IV && (l.rq <= NL || l.gr == l.rq) {
      EasyConvert(r, l);
    }
  }

  lemma ConvertNowTidy(r: Res, l: Lock)
    requires Tidy(r) && l in r.grant && ConvertArgs(l.gr, l.rq, l.flags) && !l.demoted
    ensures Tidy(ConvertNow(r, l).res)
  {
    var v := Judge(r, l, true);
    ConvertNowSafe(r, l);
    if !v.granted && !(v.deadlk && !l.flags.nodlckwt) {
      RefusedIsQueueable(r, l);
      RewriteTidy(r, l, v.lock);
      if v.lock.demoted {
        SettleConvertTidy(r.(grant := Replace(r.grant, v.lock)), false);
      }
    }
  }

  lemma ConvertTidy(r: Res, id: LkId, mode: Mode, f: Flags)
    requires Tidy(r) && mode >= NL && !f.expedite
    requires Has(r.grant, id) ==> ConvertArgs(r.grant[Index(r.grant, id)].gr, mode, f)
    ensures Tidy(DoConvert(r, id, mode, f).res)
  {
    if Has(r.grant, id) {
      var l := SetConvert(r.grant[Index(r.grant, id)], mode, f);
      RewriteTidy(r, r.grant[Index(r.grant, id)], l);
      var r1 := r.(grant := Replace(r.grant, l));
      ConvertNowTidy(r1, l);
      if ConvertNow(r1, l).rc == Ok {
        SettleAllTidy(ConvertNow(r1, l).res);
      }
    }
  }

  // ----- what is blocked stays blocked

  /** More holders and no better position: still blocked. */
  lemma VerdictMono(r: Res, s: Res, x: Lock)
    requires forall y :: Holds(r, y) && y.id != x.id ==> exists z :: Holds(s, z) && z.id == y.id && z.gr == y.gr
    requires r.convert != [] ==> s.convert != []
    requires First(s.convert, x) ==> First(r.convert, x)
    requires First(s.wait, x) ==> First(r.wait, x)
    requires x.gr != IV && Deadlocks(r.convert, x, false) ==> Deadlocks(s.convert, x, false)
    ensures Judge(s, x, false).granted ==> Judge(r, x, false).granted
  {
    BlocksMono(r, s, x);
    BlocksMono(r, s, x.(rq := AltMode(x.rq, x.flags)));
  }

  // ----- requests

  lemma RequestGrantedQuiet(r: Res, l: Lock)
    requires Tidy(r) && Quiet(r) && Lookup(r, l.id) == None && l.gr == IV && RequestArgs(l.rq, l.flags)
    requires Judge(r, l, true).granted
    ensures Quiet(DoRequest(r, l).res)
  {
    AddedQuiet(r, Judge(r, l, true).lock);
  }

  /** One more granted lock makes nothing grantable. */
  lemma AddedQuiet(r: Res, m: Lock)
    requires Tidy(r) && Quiet(r) && Lookup(r, m.id) == None && m.gr != m.rq
    ensures Quiet(GrantHere(r, m))
  {
    var s := GrantHere(r, m);
    InsertOrderedMembers(r.grant, AfterGrant(m), m.rq);
    assert forall y :: Holds(r, y) ==> Holds(s, y);
    forall x | x in s.convert || x in s.wait ensures !Judge(s, x, false).granted {
      VerdictMono(r, s, x);
    }
  }

  lemma EnqueueFirst(q: seq<Lock>, l: Lock, x: Lock)
    ensures First(Enqueue(q, l), x) <==> if l.flags.headque || q == [] then x.id == l.id else First(q, x)
  {
    if !l.flags.headque && q != [] {
      assert Enqueue(q, l)[0] == q[0];
    }
  }

  /** Moving a lock to the convert queue changes no holder. */
  lemma ToConvertMembers(r: Res, m: Lock)
    requires WellShaped(r) && m in r.grant
    ensures
      var s := r.(grant := Drop(r.grant, m.id), convert := Enqueue(r.convert, m));
      && (forall x :: x in s.convert <==> x == m || x in r.convert)
      && (forall y :: Holds(r, y) <==> Holds(s, y))
      && (forall y :: (y in r.convert || y in r.wait) ==> y.id != m.id)
  {
    NotKnown(r, m.id);
    DropMembers(r.grant, m.id);
    SameLock(r.grant, m.id);
  }

  // ----- conversions

  /** Changing what a granted lock asks for, or its flags, blocks and unblocks nobody. */
  lemma RewriteQuiet(r: Res, l: Lock, m: Lock)
    requires Tidy(r) && l in r.grant && m.id == l.id && m.gr == l.gr
    ensures Quiet(r) ==> Quiet(r.(grant := Replace(r.grant, m)))
  {
    var s := r.(grant := Replace(r.grant, m));
    NotKnown(r, l.id);
    ReplaceMembers(r.grant, m);
    SameLock(r.grant, l.id);
    forall y | Holds(r, y) ensures exists z :: Holds(s, z) && z.id == y.id && z.gr == y.gr {
      assert Holds(s, if y.id == l.id then m else y);
    }
    forall x | Quiet(r) && (x in s.convert || x in s.wait) ensures !Judge(s, x, false).granted {
      VerdictMono(r, s, x);
    }
  }

  lemma {:induction false} DeadlocksAfterAppend(q: seq<Lock>, m: Lock, x: Lock, ahead: bool)
    ensures Deadlocks(q, x, ahead) ==> Deadlocks(q + [m], x, ahead)
  {
    if q != [] {
      assert (q + [m])[1..] == q[1..] + [m];
      DeadlocksAfterAppend(q[1..], m, x, ahead || q[0].id == x.id);
    }
  }

  lemma DeadlocksAfterEnqueue(q: seq<Lock>, m: Lock, x: Lock)
    requires m.id != x.id
    ensures Deadlocks(q, x, false) ==> Deadlocks(Enqueue(q, m), x, false)
  {
    if m.flags.headque {
      assert ([m] + q)[1..] == q;
    } else {
      DeadlocksAfterAppend(q, m, x, false);
    }
  }

  lemma QueuedOthersQuiet(r: Res, m: Lock)
    requires Tidy(r) && m in r.grant && QuietConvert(r)
    requires forall w :: w in r.wait ==> !w.flags.noorder || !Judge(r, w, false).granted
    ensures
      var s := r.(grant := Drop(r.grant, m.id), convert := Enqueue(r.convert, m));
      forall x :: x in s.wait || (x in s.convert && x != m) ==> !Judge(s, x, false).granted
  {
    var s := r.(grant := Drop(r.grant, m.id), convert := Enqueue(r.convert, m));
    ToConvertMembers(r, m);
    forall x | x in r.convert ensures !Judge(s, x, false).granted {
      EnqueueFirst(r.convert, m, x);
      DeadlocksAfterEnqueue(r.convert, m, x);
      VerdictMono(r, s, x);
    }
    forall x | x in s.wait ensures !Judge(s, x, false).granted {
      WaitersBehindQuiet(r, s, x);
    }
  }

  lemma WaitersBehindQuiet(r: Res, s: Res, w: Lock)
    requires w.gr == IV && !w.flags.expedite && s.wait == r.wait && s.convert != [] && !First(s.convert, w)
    requires forall y :: Holds(r, y) ==> Holds(s, y)
    requires !w.flags.noorder || !Judge(r, w, false).granted
    ensures !Judge(s, w, false).granted
  {
    if w.flags.noorder {
      VerdictMono(r, s, w);
    }
  }

  // ----- a conversion that is queued

  /** Its place in the queue will not keep `m` from being granted. */
  predicate Foremost(s: Res, m: Lock) {
    m.flags.noorder || (m.gr != IV && (m.flags.headque || s.convert == []))
  }

  /** Nothing stands in the way of `m`, or of its alternative, and once queued it could go from where it stands. */
  ghost predicate FreeToGo(s: Res, m: Lock) {
    Foremost(s, m) && (!Blocks(s, m) || AltIsFree(s, m))
  }

  ghost predicate AltIsFree(s: Res, m: Lock) {
    var alt := AltMode(m.rq, m.flags);
    alt != NL && !Blocks(s, m.(rq := alt)) && !Deadlocks(Enqueue(s.convert, m), m, false)
  }

  /** A waiter that need not wait its turn, and that nothing stands in the way of. */
  ghost predicate WaiterFreeToGo(s: Res) {
    exists w :: w in s.wait && w.flags.noorder
      && (!Blocks(s, w) || (AltMode(w.rq, w.flags) != NL && !Blocks(s, w.(rq := AltMode(w.rq, w.flags)))))
  }

  /** The resource after `m` has been demoted, and the walk over the convert queue that follows. */
  function AfterDemotion(r: Res, m: Lock): Res
    requires Live(r.convert)
  {
    SettleConvert(r.(grant := Replace(r.grant, m)), false).res
  }

  /** The conversion is not granted, not refused, and free to go from the queue; or, if it is demoted first, it or
      a waiter is free to go after that. */
  ghost predicate LosesAGrant(r: Res, l: Lock)
    requires Live(r.convert)
  {
    var v := Judge(r, l, true);
    && !v.granted && !l.flags.noqueue && (v.deadlk ==> l.flags.nodlckwt)
    && if v.lock.demoted then DemotionLoses(AfterDemotion(r, v.lock), v.lock) else FreeToGo(r, l)
  }

  ghost predicate DemotionLoses(s: Res, m: Lock) {
    !Grantable(s, m, true) && (FreeToGo(s, m) || WaiterFreeToGo(s))
  }

  /** On the queue a conversion could be granted exactly if it was free to go before. */
  lemma QueuedSelfExactly(s: Res, m: Lock)
    requires WellShaped(s) && m in s.grant && !m.flags.noqueue && !m.flags.expedite
    ensures var t := s.(grant := Drop(s.grant, m.id), convert := Enqueue(s.convert, m));
      Judge(t, m, false).granted <==> FreeToGo(s, m)
  {
    var t := s.(grant := Drop(s.grant, m.id), convert := Enqueue(s.convert, m));
    ToConvertMembers(s, m);
    SameBlocks(s, t, m);
    SameBlocks(s, t, m.(rq := AltMode(m.rq, m.flags)));
    EnqueueFirst(s.convert, m, m);
    if s.convert != [] {
      assert s.convert[0] in s.convert;
    }
    if m.gr == IV {
      NullNeverDeadlocks(t.convert, m, false);
    }
  }

  lemma SameBlocks(s: Res, t: Res, m: Lock)
    requires forall y :: Holds(s, y) <==> Holds(t, y)
    ensures Blocks(s, m) <==> Blocks(t, m)
  {
    BlocksMono(s, t, m);
    BlocksMono(t, s, m);
  }

  lemma QueuedQuietExactly(s: Res, m: Lock)
    requires Tidy(s) && m in s.grant && !m.flags.noqueue && !m.flags.expedite && QuietConvert(s)
    ensures Quiet(s.(grant := Drop(s.grant, m.id), convert := Enqueue(s.convert, m)))
      <==> !FreeToGo(s, m) && !WaiterFreeToGo(s)
  {
    QueuedSelfExactly(s, m);
    ToConvertMembers(s, m);
    if WaiterFreeToGo(s) {
      FreeWaiterIsLost(s, m);
    } else {
      WaitersNotFree(s);
      QueuedOthersQuiet(s, m);
    }
  }

  /** What stands on the wait queue and may ignore the order is free to go exactly if it would be granted. */
  lemma WaitersNotFree(s: Res)
    requires WellShaped(s)
    ensures !WaiterFreeToGo(s) <==> forall w :: w in s.wait ==> !w.flags.noorder || !Judge(s, w, false).granted
  {
    if WaiterFreeToGo(s) {
      var w :| w in s.wait && w.flags.noorder
        && (!Blocks(s, w) || (AltMode(w.rq, w.flags) != NL && !Blocks(s, w.(rq := AltMode(w.rq, w.flags)))));
      FreeWaiterPasses(s, w);
    }
  }

  lemma FreeWaiterIsLost(s: Res, m: Lock)
    requires WellShaped(s) && m in s.grant && WaiterFreeToGo(s)
    ensures !Quiet(s.(grant := Drop(s.grant, m.id), convert := Enqueue(s.convert, m)))
  {
    var t := s.(grant := Drop(s.grant, m.id), convert := Enqueue(s.convert, m));
    ToConvertMembers(s, m);
    var w :| w in s.wait && w.flags.noorder
      && (!Blocks(s, w) || (AltMode(w.rq, w.flags) != NL && !Blocks(s, w.(rq := AltMode(w.rq, w.flags)))));
    SameBlocks(s, t, w);
    SameBlocks(s, t, w.(rq := AltMode(w.rq, w.flags)));
    FreeWaiterPasses(t, w);
  }

  lemma FreeWaiterPasses(t: Res, w: Lock)
    requires w.gr == IV && w.flags.noorder
    requires !Blocks(t, w) || (AltMode(w.rq, w.flags) != NL && !Blocks(t, w.(rq := AltMode(w.rq, w.flags))))
    ensures Judge(t, w, false).granted
  {
  }

  /** The demotion and the walk after it, before the lock is queued. */
  lemma DemotedThen(r: Res, l: Lock)
    requires Tidy(r) && l in r.grant && !l.demoted && !l.flags.expedite && Judge(r, l, true).lock.demoted
    ensures var m := Judge(r, l, true).lock; var s := AfterDemotion(r, m);
      && Tidy(s) && m in s.grant && QuietConvert(s) && !m.flags.noqueue && m.flags == l.flags && m.id == l.id
      && ConvertNow(r, l) == ConvertRest(r.(grant := Replace(r.grant, m)), m)
  {
    var m := Judge(r, l, true).lock;
    WhenDemoted(r, l);
    RewriteTidy(r, l, m);
    var r1 := r.(grant := Replace(r.grant, m));
    SettleConvertTidy(r1, false);
    SettleConvertSafe(r1, false);
    SettleConvertQuiet(r1, false);
  }

  /** A conversion that is refused leaves nothing grantable. */
  lemma RefusedQuiet(r: Res, l: Lock)
    requires Tidy(r) && l in r.grant && Quiet(r)
    ensures Quiet(r.(grant := Replace(r.grant, l.(rq := IV)))) && r.(grant := Replace(r.grant, l)) == r
  {
    RewriteQuiet(r, l, l.(rq := IV));
    SelfReplace(r, l);
  }

  lemma SelfReplace(r: Res, l: Lock)
    requires WellShaped(r) && l in r.grant
    ensures r.(grant := Replace(r.grant, l)) == r
  {
    SameLock(r.grant, l.id);
  }

  /** A conversion, with its effects, leaves a grantable lock behind exactly when it loses a grant. */
  lemma ConvertQuietExactly(r: Res, id: LkId, mode: Mode, f: Flags)
    requires Tidy(r) && Quiet(r) && Has(r.grant, id) && mode >= NL && !f.expedite
    ensures var l := SetConvert(r.grant[Index(r.grant, id)], mode, f);
      && Live(r.(grant := Replace(r.grant, l)).convert)
      && (Quiet(DoConvert(r, id, mode, f).res) <==> !LosesAGrant(r.(grant := Replace(r.grant, l)), l))
  {
    var l0 := r.grant[Index(r.grant, id)];
    var l := SetConvert(l0, mode, f);
    var r1 := r.(grant := Replace(r.grant, l));
    RewriteQuiet(r, l0, l);
    RewriteTidy(r, l0, l);
    ConvertNowQuietExactly(r1, l);
    if ConvertNow(r1, l).rc == Ok {
      GrantedNowTidy(r1, l);
      SettleAllQuiet(ConvertNow(r1, l).res);
    }
  }

  lemma GrantedNowTidy(r: Res, l: Lock)
    requires Tidy(r) && l in r.grant && l.rq >= NL && !l.flags.expedite && !l.demoted && ConvertNow(r, l).rc == Ok
    ensures Tidy(ConvertNow(r, l).res)
  {
    ConvertNowSafe(r, l);
    NowConverts(r, l);
    if Judge(r, l, true).lock.demoted {
      DemotedThen(r, l);
    }
  }

  /** A conversion that is granted leaves the convert queue as it was, or as the walk after the demotion did. */
  lemma NowConverts(r: Res, l: Lock)
    requires Live(r.convert) && !l.demoted && ConvertNow(r, l).rc == Ok
    ensures var m := Judge(r, l, true).lock;
      ConvertNow(r, l).res.convert == if m.demoted then AfterDemotion(r, m).convert else r.convert
  {
  }

  lemma ConvertNowQuietExactly(r: Res, l: Lock)
    requires Tidy(r) && l in r.grant && !l.demoted && Quiet(r) && !l.flags.expedite
    ensures LosesAGrant(r, l) ==> ConvertNow(r, l).rc == InProgress
    ensures ConvertNow(r, l).rc != Ok ==> (Quiet(ConvertNow(r, l).res) <==> !LosesAGrant(r, l))
  {
    var v := Judge(r, l, true);
    if v.granted {
    } else if v.lock.demoted {
      DemotedThen(r, l);
      QueuedQuietExactly(AfterDemotion(r, v.lock), v.lock);
    } else {
      RefusedQuiet(r, l);
      if !l.flags.noqueue {
        WaitersNotFree(r);
        QueuedQuietExactly(r, l);
      }
    }
  }

  /** In particular it leaves none if its flags cannot free it, and no waiter that need not wait its turn can be
      freed by a demotion. */
  lemma ConvertQuiet(r: Res, id: LkId, mode: Mode, f: Flags)
    requires Tidy(r) && Quiet(r) && mode >= NL && !f.expedite && OrderlyConvert(mode, f)
    requires f.convdeadlk ==> forall w :: w in r.wait ==> !w.flags.noorder
    ensures Quiet(DoConvert(r, id, mode, f).res)
  {
    if Has(r.grant, id) {
      var l0 := r.grant[Index(r.grant, id)];
      var l := SetConvert(l0, mode, f);
      ConvertQuietExactly(r, id, mode, f);
      RewriteTidy(r, l0, l);
      OrderlyLosesNothing(r.(grant := Replace(r.grant, l)), l);
    }
  }

  lemma OrderlyLosesNothing(r: Res, l: Lock)
    requires Tidy(r) && l in r.grant && !l.demoted && !l.flags.expedite && OrderlyConvert(l.rq, l.flags)
    requires l.flags.convdeadlk ==> forall w :: w in r.wait ==> !w.flags.noorder
    ensures !LosesAGrant(r, l)
  {
    var v := Judge(r, l, true);
    if v.lock.demoted {
      WhenDemoted(r, l);
      OrderlyDemotion(r, v.lock);
    } else if !v.granted && PlainConvert(l.rq, l.flags) {
      PlainIsNotFree(r, l);
    } else if !v.granted && !l.flags.noqueue && (v.deadlk ==> l.flags.nodlckwt) {
      AltIsNotFree(r, l);
    }
  }

  lemma WhenDemoted(r: Res, l: Lock)
    requires !l.demoted && Judge(r, l, true).lock.demoted
    ensures var v := Judge(r, l, true);
      && !v.granted && !v.deadlk && v.lock == l.(gr := NL, demoted := true)
      && l.gr != IV && l.flags.convdeadlk && !l.flags.noqueue
  {
  }

  lemma OrderlyDemotion(r: Res, m: Lock)
    requires Live(r.convert) && m.flags.convdeadlk && OrderlyConvert(m.rq, m.flags)
    requires forall w :: w in r.wait ==> !w.flags.noorder
    ensures !DemotionLoses(AfterDemotion(r, m), m)
  {
    if !Grantable(AfterDemotion(r, m), m, true) {
      PlainIsNotFree(AfterDemotion(r, m), m);
    }
  }

  lemma PlainIsNotFree(s: Res, m: Lock)
    requires OrderlyConvert(m.rq, m.flags) && PlainConvert(m.rq, m.flags) && !Grantable(s, m, true)
    ensures !FreeToGo(s, m)
  {
    if m.rq <= CR {
      WeakConflicts(s.grant, m, AltMode(m.rq, m.flags));
      WeakConflicts(s.convert, m, AltMode(m.rq, m.flags));
    }
  }

  lemma AltIsNotFree(r: Res, l: Lock)
    requires !l.flags.noqueue && !Judge(r, l, true).granted && !Judge(r, l, true).lock.demoted
    requires Judge(r, l, true).deadlk ==> l.flags.nodlckwt && !l.flags.headque
    requires l.flags.quecvt ==> !l.flags.headque && !l.flags.noorder
    ensures !FreeToGo(r, l)
  {
    if Judge(r, l, true).deadlk {
      DeadlocksAfterAppend(r.convert, l, l, false);
    }
  }

  // ----- unlock and cancel

  lemma UnlockQuiet(r: Res, id: LkId)
    requires Tidy(r) && Quiet(r)
    ensures Quiet(DoUnlock(r, id).res)
  {
    DropTidy(r, id);
    if Known(r, id) {
      SettleAllQuiet(Res(Drop(r.grant, id), Drop(r.convert, id), Drop(r.wait, id)));
    }
  }

  lemma CancelQuiet(r: Res, id: LkId)
    requires Tidy(r) && Quiet(r)
    ensures Quiet(DoCancel(r, id).res)
  {
    if Has(r.grant, id) {
      var l := r.grant[Index(r.grant, id)];
      RewriteQuiet(r, l, l.(rq := IV));
    } else if Has(r.convert, id) {
      RevertTidy(r, id);
      var l := r.convert[Index(r.convert, id)].(rq := IV);
      SettleAllQuiet(r.(grant := InsertOrdered(r.grant, l, l.gr), convert := Drop(r.convert, id)));
    } else if Has(r.wait, id) {
      DropTidy(r, id);
      SettleAllQuiet(r.(wait := Drop(r.wait, id)));
    }
  }

  // ----- exactly when a grant is lost

  /** A request that jumps to the head of a non-empty wait queue although no mode stands in its way. */
  ghost predicate JumpsAhead(r: Res, l: Lock) {
    && !l.flags.noqueue && l.flags.headque && !l.flags.noorder && !l.flags.expedite
    && r.convert == [] && r.wait != []
    && (!Conflicts(r.grant, l)
        || (AltMode(l.rq, l.flags) != NL && !Conflicts(r.grant, l.(rq := AltMode(l.rq, l.flags)))))
  }

  /** A request leaves a grantable lock behind exactly when it jumps ahead. */
  lemma RequestQuietExactly(r: Res, l: Lock)
    requires Tidy(r) && Quiet(r) && Lookup(r, l.id) == None && l.gr == IV && RequestArgs(l.rq, l.flags)
    ensures Quiet(DoRequest(r, l).res) <==> !JumpsAhead(r, l)
  {
    if JumpsAhead(r, l) {
      JumperIsLost(r, l);
    } else if Judge(r, l, true).granted {
      RequestGrantedQuiet(r, l);
    } else if !l.flags.noqueue {
      NotKnown(r, l.id);
      QueuedBehindQuiet(r, l);
      NewWaiterBlocked(r, l);
      NewWaiterBlocked(r, l.(rq := AltMode(l.rq, l.flags)));
    }
  }

  lemma JumperIsLost(r: Res, l: Lock)
    requires JumpsAhead(r, l) && l.gr == IV
    ensures !Quiet(DoRequest(r, l).res)
  {
    var s := r.(wait := Enqueue(r.wait, l));
    assert s.wait[0] == l;
    assert Judge(s, l, false).granted;
  }

  lemma QueuedBehindQuiet(r: Res, l: Lock)
    requires Tidy(r) && Quiet(r) && l.gr == IV && forall x :: x in r.convert || x in r.wait ==> x.id != l.id
    ensures var s := r.(wait := Enqueue(r.wait, l));
      forall x :: x in s.convert || (x in s.wait && x != l) ==> !Judge(s, x, false).granted
  {
    var s := r.(wait := Enqueue(r.wait, l));
    forall x | x in s.convert || (x in s.wait && x != l) ensures !Judge(s, x, false).granted {
      EnqueueFirst(r.wait, l, x);
      VerdictMono(r, s, x);
    }
  }

  /** A waiter could go from the queue only if it could have gone at once, or has got to the head of others. */
  lemma NewWaiterBlocked(r: Res, l: Lock)
    requires l.gr == IV && forall x :: x in r.wait ==> x.id != l.id
    ensures Grantable(r.(wait := Enqueue(r.wait, l)), l, false) ==>
      Grantable(r, l, true)
      || (l.flags.headque && !l.flags.noorder && r.convert == [] && r.wait != [] && !Conflicts(r.grant, l))
  {
    EnqueueFirst(r.wait, l, l);
  }

  /** In particular it leaves none if its flags do not let it jump ahead. */
  lemma RequestQuiet(r: Res, l: Lock)
    requires Tidy(r) && Quiet(r) && Lookup(r, l.id) == None && l.gr == IV && RequestArgs(l.rq, l.flags)
    requires OrderlyRequest(l.flags)
    ensures Quiet(DoRequest(r, l).res)
  {
    RequestQuietExactly(r, l);
  }

  /** A reader holds, a writer waits, and another reader asks to be put first: it is queued although it could
      be granted from where it stands. */
  lemma JumpingAheadLosesAGrant()
    ensures exists r: Res, l: Lock :: Tidy(r) && Quiet(r) && Lookup(r, l.id) == None && l.gr == IV
                           && RequestArgs(l.rq, l.flags) && JumpsAhead(r, l) && !Quiet(DoRequest(r, l).res)
  {
    var reader := Lock(LkId(0, 1), PR, IV, PLAIN, false, false);
    var writer := Lock(LkId(0, 2), IV, EX, PLAIN, false, false);
    var late := Lock(LkId(0, 3), IV, PR, PLAIN.(headque := true), false, false);
    var r := Res([reader], [], [writer]);
    assert r.grant[0] in r.grant && r.wait[0] in r.wait;
    assert Conflicts(r.grant, writer) && !Conflicts(r.grant, late);
    RequestQuietExactly(r, late);
  }

  // A third owner keeps two writers out: `FIRST`, who waits, and `SECOND`, who asks now and is demoted because the
  // two are in a deadlock.  The demotion frees a waiter that need not wait its turn, and only the convert queue
  // is walked.

  const THIRD := Lock(LkId(0, 1), CR, IV, PLAIN, false, false)
  const SECOND := Lock(LkId(0, 2), PR, EX, PLAIN.(convdeadlk := true), false, false)
  const FIRST := Lock(LkId(0, 3), CR, EX, PLAIN, false, false)
  const FREED := Lock(LkId(0, 4), IV, CW, PLAIN.(noorder := true), false, false)
  const BUSY := Res([THIRD, SECOND], [FIRST], [FREED])
  const DEMOTED := SECOND.(gr := NL, demoted := true)
  const AFTERWARDS := Res([THIRD, DEMOTED], [FIRST], [FREED])

  lemma DemotionLosesAGrant()
    ensures Tidy(BUSY) && Quiet(BUSY) && SECOND in BUSY.grant && !SECOND.demoted
    ensures ConvertArgs(SECOND.gr, SECOND.rq, SECOND.flags) && PlainConvert(SECOND.rq, SECOND.flags)
    ensures LosesAGrant(BUSY, SECOND) && !Quiet(ConvertNow(BUSY, SECOND).res)
  {
    assert BUSY.grant[1] in BUSY.grant;
    BusyIsTidy();
    BusyIsQuiet();
    SecondIsDemoted();
    NobodyElseGoes();
    assert ConvertNow(BUSY, SECOND).rc == InProgress;
    assert AFTERWARDS.wait[0] in AFTERWARDS.wait && WaiterFreeToGo(AFTERWARDS);
    ConvertNowQuietExactly(BUSY, SECOND);
  }

  lemma BusyIsTidy()
    ensures Tidy(BUSY)
  {
  }

  lemma BusyIsQuiet()
    ensures Quiet(BUSY)
  {
    assert BUSY.grant[1] in BUSY.grant;
    assert Conflicts(BUSY.grant, FIRST) && Conflicts(BUSY.grant, FREED);
  }

  lemma SecondIsDemoted()
    ensures Judge(BUSY, SECOND, true) == Verdict(false, DEMOTED, false)
    ensures Replace(BUSY.grant, DEMOTED) == AFTERWARDS.grant
  {
    assert BUSY.grant[0] in BUSY.grant && Conflicts(BUSY.grant, SECOND);
  }

  lemma NobodyElseGoes()
    ensures SettleConvert(AFTERWARDS, false) == Settled(AFTERWARDS, []) && !Grantable(AFTERWARDS, DEMOTED, true)
    ensures !Blocks(AFTERWARDS, FREED)
  {
    var r := AFTERWARDS;
    assert r.grant[0] in r.grant && Conflicts(r.grant, FIRST) && Conflicts(r.grant, DEMOTED);
    assert r.convert[1..] == [] && !Deadlocks(r.convert, FIRST, false);
    assert Judge(r, FIRST, false) == Verdict(false, FIRST, false) && r.convert[0 := FIRST] == r.convert;
    assert ConvertStep(r, 0) == (r, 1) && ConvertPass(r, 1) == Pass(r, false, false, []);
  }
}

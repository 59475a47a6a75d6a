/** Pairwise compatibility of granted modes, after every operation and every combination of flags that the
    argument checks let through. */
module Safety {
  import opened Modes
  import opened Resource
  import opened Shape

  /** What the argument check guarantees about a request: the shortcut flag goes with null mode only. */
  predicate RequestArgs(mode: Mode, f: Flags) {
    mode >= NL && (f.expedite ==> mode == NL && !f.noqueue) && !f.quecvt && !f.convdeadlk
  }

  /** ... and about a conversion of a lock granted in mode `gr`. */
  predicate ConvertArgs(gr: Mode, mode: Mode, f: Flags) {
    && mode >= NL && !f.expedite
    && !(f.convdeadlk && f.noqueue)
    && (f.quecvt ==> QuecvtCompat(gr, mode))
  }

  ghost predicate KeepsGranted(r: Res, s: Res) {
    forall x :: x in r.grant ==> x in s.grant
  }

  lemma {:induction false} ConvertPassSafe(r: Res, i: nat)
    requires Safe(r) && i <= |r.convert|
    ensures Safe(ConvertPass(r, i).res) && KeepsGranted(r, ConvertPass(r, i).res)
    decreases |r.convert| - i
  {
    if i < |r.convert| {
      var v := Judge(r, r.convert[i], false);
      if v.granted {
        GrantConvertSafe(r, i, v.lock);
        InsertOrderedMembers(r.grant, AfterGrant(v.lock), v.lock.rq);
      } else {
        DemoteSafe(r, i, v.lock);
      }
      var (next, k) := ConvertStep(r, i);
      ConvertPassSafe(next, k);
    }
  }

  lemma {:induction false} SettleConvertSafe(r: Res, quit: bool)
    requires Safe(r)
    ensures Safe(SettleConvert(r, quit).res) && KeepsGranted(r, SettleConvert(r, quit).res)
    decreases Weight(r.convert), !quit
  {
    ConvertPassSafe(r, 0);
    var p := ConvertPass(r, 0);
    if p.granted {
      SettleConvertSafe(p.res, quit);
    } else if p.demoted && !quit {
      SettleConvertSafe(p.res, true);
    }
  }

  /** A waiter is granted a mode it has not got, or left alone: it is never demoted. */
  lemma WaiterJudged(r: Res, l: Lock)
    requires WellShaped(r) && l in r.wait
    ensures var v := Judge(r, l, false); if v.granted then v.lock.gr != v.lock.rq else v.lock == l
  {
  }

  lemma {:induction false} WaitPassSafe(r: Res, i: nat)
    requires Safe(r)
    ensures Safe(WaitPass(r, i).res) && KeepsGranted(r, WaitPass(r, i).res)
    decreases |r.wait| - i
  {
    if i < |r.wait| {
      var l := r.wait[i];
      var v := Judge(r, l, false);
      WaiterJudged(r, l);
      if v.granted {
        GrantWaitSafe(r, i, v.lock);
        InsertOrderedMembers(r.grant, AfterGrant(v.lock), v.lock.rq);
        WaitPassSafe(GrantWait(r, i, v.lock), i);
      } else {
        assert r.wait[i := v.lock] == r.wait;
        WaitPassSafe(r.(wait := r.wait[i := v.lock]), i + 1);
      }
    }
  }

  lemma SettleAllSafe(r: Res)
    requires Safe(r)
    ensures Safe(SettleAll(r).res) && KeepsGranted(r, SettleAll(r).res)
  {
    SettleConvertSafe(r, false);
    WaitPassSafe(SettleConvert(r, false).res, 0);
  }

  /** Granting in place, or for the first time, a lock that passed the test. */
  lemma GrantHereSafe(r: Res, l: Lock)
    requires Safe(r)
    requires !Has(r.convert, l.id) && !Has(r.wait, l.id) && (!Has(r.grant, l.id) ==> l.gr != l.rq)
    requires forall x :: Holds(r, x) && x.id != l.id ==> Compat(x.gr, l.rq)
    ensures Safe(GrantHere(r, l))
  {
    var g := AfterGrant(l);
    DropMembers(r.grant, l.id);
    DropMembers(r.convert, l.id);
    DropMembers(r.wait, l.id);
    InsertOrderedMembers(Drop(r.grant, l.id), g, l.rq);
    ReplaceMembers(r.grant, g);
    var s := GrantHere(r, l);
    assert forall x :: Holds(s, x) ==> x == g || (Holds(r, x) && x.id != l.id);
  }

  /** Rewriting a granted lock without strengthening its mode. */
  lemma RewriteSafe(r: Res, l: Lock, m: Lock)
    requires Safe(r) && l in r.grant && m.id == l.id && (m.gr == l.gr || m.gr == NL)
    ensures Safe(r.(grant := Replace(r.grant, m))) && m in Replace(r.grant, m)
  {
    ReplaceMembers(r.grant, m);
    DropMembers(r.grant, l.id);
    var s := r.(grant := Replace(r.grant, m));
    assert Holds(r, l);
    assert forall x :: Holds(s, x) ==> x == m || (Holds(r, x) && x.id != m.id);
  }

  lemma ToConvertSafe(r: Res, l: Lock)
    requires Safe(r) && l in r.grant && !l.flags.expedite && l.rq != IV
    ensures Safe(r.(grant := Drop(r.grant, l.id), convert := Enqueue(r.convert, l)))
  {
    DropMembers(r.grant, l.id);
    var s := r.(grant := Drop(r.grant, l.id), convert := Enqueue(r.convert, l));
    assert Holds(r, l);
    assert forall x :: Holds(s, x) ==> Holds(r, x);
  }

  /** A positive verdict means the mode about to be granted suits every other holder. */
  lemma VerdictFits(r: Res, l: Lock, now: bool)
    requires Judge(r, l, now).granted && (l.flags.expedite ==> l.rq == NL)
    ensures forall x :: Holds(r, x) && x.id != l.id ==> Compat(x.gr, Judge(r, l, now).lock.rq)
  {
    var m := Judge(r, l, now).lock;
    assert Grantable(r, m, now);
    if !l.flags.expedite {
      assert !Conflicts(r.grant, m) && !Conflicts(r.convert, m);
    }
  }

  lemma NotKnown(r: Res, id: LkId)
    requires WellShaped(r)
    ensures !Has(r.grant, id) <==> forall x :: x in r.grant ==> x.id != id
    ensures !Has(r.convert, id) <==> forall x :: x in r.convert ==> x.id != id
    ensures !Has(r.wait, id) <==> forall x :: x in r.wait ==> x.id != id
  {
    DropMembers(r.grant, id);
    DropMembers(r.convert, id);
    DropMembers(r.wait, id);
  }

  lemma EnqueueWaitSafe(r: Res, l: Lock)
    requires Safe(r) && !Known(r, l.id) && l.gr == IV && l.rq != IV && !l.flags.expedite
    ensures Safe(r.(wait := Enqueue(r.wait, l)))
  {
    NotKnown(r, l.id);
    var s := r.(wait := Enqueue(r.wait, l));
    assert forall x :: Holds(s, x) ==> Holds(r, x);
  }

  lemma RequestSafe(r: Res, l: Lock)
    requires Safe(r) && !Known(r, l.id)
    requires l.gr == IV && RequestArgs(l.rq, l.flags)
    ensures Safe(DoRequest(r, l).res)
  {
    if Judge(r, l, true).granted {
      VerdictFits(r, l, true);
      GrantHereSafe(r, Judge(r, l, true).lock);
    } else if !l.flags.noqueue {
      EnqueueWaitSafe(r, l);
    }
  }

  lemma ConvertNowSafe(r: Res, l: Lock)
    requires Safe(r) && l in r.grant && l.rq >= NL && !l.flags.expedite
    ensures Safe(ConvertNow(r, l).res)
  {
    var v := Judge(r, l, true);
    NotKnown(r, l.id);
    if v.granted {
      VerdictFits(r, l, true);
      GrantHereSafe(r, v.lock);
    } else if v.deadlk && !l.flags.nodlckwt {
      RewriteSafe(r, l, v.lock.(rq := IV));
    } else {
      RewriteSafe(r, l, v.lock);
      var r1 := r.(grant := Replace(r.grant, v.lock));
      if v.lock.demoted {
        SettleConvertSafe(r1, false);
      }
      ConvertTailSafe(if v.lock.demoted then SettleConvert(r1, false).res else r1, v.lock);
    }
  }

  /** The two ways a conversion that was not granted at once may end up on a queue or granted after all. */
  lemma ConvertTailSafe(r: Res, l: Lock)
    requires Safe(r) && l in r.grant && l.rq >= NL && !l.flags.expedite
    ensures Grantable(r, l, true) ==> Safe(GrantHere(r, l))
    ensures Safe(r.(grant := Drop(r.grant, l.id), convert := Enqueue(r.convert, l)))
  {
    NotKnown(r, l.id);
    ToConvertSafe(r, l);
    if Grantable(r, l, true) {
      VerdictFits(r, l, true);
      GrantHereSafe(r, l);
    }
  }

  lemma ConvertSafe(r: Res, id: LkId, mode: Mode, f: Flags)
    requires Safe(r) && mode >= NL && !f.expedite
    ensures Safe(DoConvert(r, id, mode, f).res)
  {
    if Has(r.grant, id) {
      var l0 := r.grant[Index(r.grant, id)];
      var l := SetConvert(l0, mode, f);
      RewriteSafe(r, l0, l);
      var r1 := r.(grant := Replace(r.grant, l));
      ConvertNowSafe(r1, l);
      var o := ConvertNow(r1, l);
      if o.rc == Ok {
        SettleAllSafe(o.res);
      }
    }
  }

  lemma DropSafe(r: Res, id: LkId)
    requires Safe(r)
    ensures Safe(Res(Drop(r.grant, id), Drop(r.convert, id), Drop(r.wait, id)))
    ensures Safe(r.(wait := Drop(r.wait, id)))
  {
    DropMembers(r.grant, id);
    DropMembers(r.convert, id);
    DropMembers(r.wait, id);
    var s := Res(Drop(r.grant, id), Drop(r.convert, id), Drop(r.wait, id));
    assert forall x :: Holds(s, x) ==> Holds(r, x);
    var t := r.(wait := Drop(r.wait, id));
    assert forall x :: Holds(t, x) ==> Holds(r, x);
  }

  lemma UnlockSafe(r: Res, id: LkId)
    requires Safe(r)
    ensures Safe(DoUnlock(r, id).res)
  {
    DropSafe(r, id);
    SettleAllSafe(Res(Drop(r.grant, id), Drop(r.convert, id), Drop(r.wait, id)));
  }

  lemma CancelSafe(r: Res, id: LkId)
    requires Safe(r)
    ensures Safe(DoCancel(r, id).res)
  {
    if Has(r.grant, id) {
      var l := r.grant[Index(r.grant, id)];
      RewriteSafe(r, l, l.(rq := IV));
    } else if Has(r.convert, id) {
      var l0 := r.convert[Index(r.convert, id)];
      var l := l0.(rq := IV);
      DropMembers(r.convert, id);
      DropMembers(r.grant, id);
      InsertOrderedMembers(r.grant, l, l.gr);
      assert Holds(r, l0);
      var s := r.(grant := InsertOrdered(r.grant, l, l.gr), convert := Drop(r.convert, id));
      assert forall x :: Holds(s, x) ==> x == l || (Holds(r, x) && x.id != id);
      SettleAllSafe(s);
    } else if Has(r.wait, id) {
      DropSafe(r, id);
      SettleAllSafe(r.(wait := Drop(r.wait, id)));
    }
  }
}

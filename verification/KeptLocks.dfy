/** The reason why a conversion that keeps its lock can name the mode it has as an alternative: whenever it has to
    wait because others are queued, it is in a deadlock with one of them. */
module KeptLocks {
  import opened Modes
  import opened Resource
  import opened Shape
  import opened Safety
  import opened Evolution
  import opened Operations
  import opened Quiescence
  import opened NoLostGrant

  /** The head of a quiet queue waits for another holder. */
  lemma QuietIsStuck(r: Res)
    requires Sound(r) && QuietConvert(r)
    ensures Stuck(r)
  {
    if r.convert != [] {
      var e := r.convert[0];
      assert e in r.convert && ProperConvert(e);
      assert Conflicts(r.grant, e) || Conflicts(r.convert, e);
    }
  }

  lemma SettledStuck(r: Res)
    requires Sound(r)
    ensures Sound(SettleAll(r).res) && Stuck(SettleAll(r).res)
  {
    SettleAllEvolves(r);
    SettleAllQuiet(r);
    QuietIsStuck(SettleAll(r).res);
  }

  lemma RequestStuck(r: Res, l: Lock)
    requires Sound(r) && Stuck(r) && Lookup(r, l.id) == None && l.gr == IV && RequestArgs(l.rq, l.flags)
    ensures Stuck(DoRequest(r, l).res)
  {
    var m := Judge(r, l, true).lock;
    InsertOrderedMembers(r.grant, AfterGrant(m), m.rq);
    var s := DoRequest(r, l).res;
    assert s.convert == r.convert && forall x :: Holds(r, x) ==> Holds(s, x);
  }

  lemma QueuedStuck(s: Res, m: Lock)
    requires Sound(s) && Stuck(s) && m in s.grant && m.rq >= NL && !m.flags.expedite && !Grantable(s, m, true)
    ensures Stuck(s.(grant := Drop(s.grant, m.id), convert := Enqueue(s.convert, m)))
  {
    var t := s.(grant := Drop(s.grant, m.id), convert := Enqueue(s.convert, m));
    ToConvertMembers(s, m);
    if s.convert == [] {
      var h :| Holds(s, h) && h.id != m.id && !Compat(h.gr, m.rq);
      assert m in t.convert && Holds(t, h);
    } else {
      var e, h :| e in s.convert && Holds(s, h) && h.id != e.id && !Compat(h.gr, e.rq);
      assert e in t.convert && Holds(t, h);
    }
  }

  lemma ConvertNowStuck(r: Res, l: Lock)
    requires Sound(r) && Stuck(r) && l in r.grant && !l.demoted
    requires ConvertArgs(l.gr, l.rq, l.flags) && KeepsLock(l.rq, l.flags)
    ensures ConvertNow(r, l).rc != Ok ==> Stuck(ConvertNow(r, l).res)
  {
    var v := Judge(r, l, true);
    if v.granted {
    } else if v.lock.demoted {
      DemotedThen(r, l);
      DemotedStuck(r, l, v.lock);
    } else {
      UndemotedStuck(r, l);
    }
  }

  lemma UndemotedStuck(r: Res, l: Lock)
    requires Sound(r) && Stuck(r) && l in r.grant && l.rq >= NL && !l.flags.expedite
    requires !Judge(r, l, true).granted && !Judge(r, l, true).lock.demoted
    ensures Stuck(ConvertNow(r, l).res)
  {
    UndemotedEnds(r, l);
    RewriteStuck(r, l, l.(rq := IV));
    SelfReplace(r, l);
    if !Grantable(r, l, true) {
      QueuedStuck(r, l);
    }
  }

  lemma UndemotedEnds(r: Res, l: Lock)
    requires Live(r.convert) && !Judge(r, l, true).granted && !Judge(r, l, true).lock.demoted
    ensures !Grantable(r, l, true)
    ensures var s := r.(grant := Replace(r.grant, l));
      || ConvertNow(r, l).res == s || ConvertNow(r, l).res == r.(grant := Replace(r.grant, l.(rq := IV)))
      || ConvertNow(r, l).res == s.(grant := Drop(s.grant, l.id), convert := Enqueue(s.convert, l))
  {
  }

  lemma DemotedStuck(r: Res, l: Lock, m: Lock)
    requires Sound(r) && l in r.grant && m == l.(gr := NL, demoted := true) && m.rq >= NL && !m.flags.expedite
    requires m in AfterDemotion(r, m).grant && QuietConvert(AfterDemotion(r, m))
    ensures var o := ConvertRest(r.(grant := Replace(r.grant, m)), m); o.rc != Ok ==> Stuck(o.res)
  {
    var s := AfterDemotion(r, m);
    RewriteEvolves(r, l, m);
    SettleConvertEvolves(r.(grant := Replace(r.grant, m)), false);
    QuietIsStuck(s);
    if !Grantable(s, m, true) {
      QueuedStuck(s, m);
    }
  }

  lemma ConvertStuck(r: Res, id: LkId, mode: Mode, f: Flags)
    requires Sound(r) && Stuck(r) && Has(r.grant, id)
    requires ConvertArgs(r.grant[Index(r.grant, id)].gr, mode, f) && KeepsLock(mode, f)
    ensures Stuck(DoConvert(r, id, mode, f).res)
  {
    var l0 := r.grant[Index(r.grant, id)];
    var l := SetConvert(l0, mode, f);
    RewriteEvolves(r, l0, l);
    RewriteStuck(r, l0, l);
    var r1 := r.(grant := Replace(r.grant, l));
    ConvertNowEvolves(r1, l);
    ConvertNowStuck(r1, l);
    if ConvertNow(r1, l).rc == Ok {
      SettledStuck(ConvertNow(r1, l).res);
    }
  }

  lemma UnlockStuck(r: Res, id: LkId)
    requires Sound(r) && Stuck(r)
    ensures Stuck(DoUnlock(r, id).res)
  {
    if Known(r, id) {
      DropEvolves(r, id);
      SettledStuck(Res(Drop(r.grant, id), Drop(r.convert, id), Drop(r.wait, id)));
    }
  }

  lemma CancelStuck(r: Res, id: LkId)
    requires Sound(r) && Stuck(r)
    ensures Stuck(DoCancel(r, id).res)
  {
    if Has(r.grant, id) {
      var l := r.grant[Index(r.grant, id)];
      RewriteStuck(r, l, l.(rq := IV));
    } else if Has(r.convert, id) {
      RevertSound(r, id);
      var l := r.convert[Index(r.convert, id)].(rq := IV);
      SettledStuck(r.(grant := InsertOrdered(r.grant, l, l.gr), convert := Drop(r.convert, id)));
    } else if Has(r.wait, id) {
      DropSafe(r, id);
      SettledStuck(r.(wait := Drop(r.wait, id)));
    }
  }
}

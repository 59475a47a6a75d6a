/** What an operation is answered, said by modes and flags alone: who holds what, who is queued, and what was
    asked for. */
module Answers {
  import opened Modes
  import opened Resource
  import opened Shape
  import opened Safety
  import opened Evolution
  import opened Operations
  import opened Quiescence
  import opened NoLostGrant

  /** No other owner's mode stands in the way of `m`. */
  ghost predicate Free(r: Res, id: LkId, m: Mode) {
    forall x :: Holds(r, x) && x.id != id ==> Compat(x.gr, m)
  }

  /** ... or in that of the alternative. */
  ghost predicate AltFree(r: Res, id: LkId, mode: Mode, f: Flags) {
    AltMode(mode, f) != NL && Free(r, id, AltMode(mode, f))
  }

  /** A queued conversion waits for the mode `gr` that `id` has. */
  ghost predicate Awaited(r: Res, id: LkId, gr: Mode) {
    exists x :: x in r.convert && x.id != id && !Compat(gr, x.rq)
  }

  lemma FreeOrBlocked(r: Res, l: Lock)
    ensures Blocks(r, l) <==> !Free(r, l.id, l.rq)
  {
    if !Free(r, l.id, l.rq) {
      var x :| Holds(r, x) && x.id != l.id && !Compat(x.gr, l.rq);
      assert Conflicts(r.grant, l) || Conflicts(r.convert, l);
    }
  }

  lemma {:induction false} AwaitedExactly(q: seq<Lock>, l: Lock)
    requires forall x :: x in q ==> x.id != l.id
    ensures Deadlocks(q, l, false) <==> exists x :: x in q && !Compat(l.gr, x.rq)
  {
    if q != [] {
      AwaitedExactly(q[1..], l);
      assert forall x :: x in q <==> x == q[0] || x in q[1..];
    }
  }

  // ----- requests

  /** A request is granted at once exactly if its mode, or else its alternative, is free and it is its turn: nobody
      is queued, or its flags say that it need not care.  The mode asked for comes first. */
  lemma RequestAnswer(r: Res, l: Lock)
    requires WellShaped(r) && Lookup(r, l.id) == None && l.gr == IV && RequestArgs(l.rq, l.flags)
    ensures
      var o, f := DoRequest(r, l), l.flags;
      && (o.rc == Ok <==>
            || f.expedite
            || ((f.noorder || (r.convert == [] && r.wait == []))
                && (Free(r, l.id, l.rq) || AltFree(r, l.id, l.rq, f))))
      && (o.rc == Ok ==> exists g :: g in o.res.grant && g.id == l.id
                           && g.gr == if f.expedite || Free(r, l.id, l.rq) then l.rq else AltMode(l.rq, f))
      && (o.rc != Ok ==> o.rc == if f.noqueue then Again else InProgress)
      && (o.rc == Again ==> o.res == r)
      && (o.rc == InProgress ==> o.res == r.(wait := if f.headque then [l] + r.wait else r.wait + [l]))
  {
    var m := l.(rq := AltMode(l.rq, l.flags));
    FreeOrBlocked(r, l);
    FreeOrBlocked(r, m);
    var v := Judge(r, l, true);
    if v.granted {
      InsertOrderedMembers(r.grant, AfterGrant(v.lock), v.lock.rq);
      assert AfterGrant(v.lock) in DoRequest(r, l).res.grant;
    }
  }

  // ----- conversions

  /** A conversion with QUECVT waits for those that are queued already. */
  predicate ItsTurn(r: Res, f: Flags) {
    f.quecvt ==> r.convert == []
  }

  /** Whether a conversion of `id`, which has mode `gr`, is granted before anything else happens. */
  ghost predicate GrantedNow(r: Res, id: LkId, gr: Mode, mode: Mode, f: Flags) {
    ItsTurn(r, f)
    && (Free(r, id, mode) || (AltFree(r, id, mode, f) && (f.noqueue || !Awaited(r, id, gr))))
  }

  /** The return code of a conversion that cannot be demoted. */
  ghost function ConvertCode(r: Res, id: LkId, gr: Mode, mode: Mode, f: Flags): Rc {
    if GrantedNow(r, id, gr, mode, f) then Ok
    else if f.noqueue then Again
    else if Awaited(r, id, gr) && !f.nodlckwt then Deadlk
    else InProgress
  }

  lemma JudgeExactly(r: Res, l: Lock)
    requires WellShaped(r) && l in r.grant && l.gr >= NL && !l.flags.expedite && !l.demoted
    ensures
      var v, f := Judge(r, l, true), l.flags;
      && (v.granted <==> GrantedNow(r, l.id, l.gr, l.rq, f))
      && (v.granted ==> v.lock.rq == if Free(r, l.id, l.rq) then l.rq else AltMode(l.rq, f))
      && (v.deadlk <==> !v.granted && !f.noqueue && !f.convdeadlk && Awaited(r, l.id, l.gr))
      && (v.lock.demoted <==> !v.granted && !f.noqueue && f.convdeadlk && Awaited(r, l.id, l.gr))
      && (!v.granted && !v.lock.demoted ==> v.lock == l)
  {
    NotKnown(r, l.id);
    FreeOrBlocked(r, l);
    FreeOrBlocked(r, l.(rq := AltMode(l.rq, l.flags)));
    AwaitedExactly(r.convert, l);
  }

  /** A conversion that cannot be demoted is granted at once exactly if its mode, or else its alternative, is free
      and it is its turn; otherwise flags and deadlock decide whether it is refused or queued. */
  lemma ConvertAnswer(r: Res, id: LkId, mode: Mode, f: Flags)
    requires WellShaped(r) && Has(r.grant, id) && r.grant[Index(r.grant, id)].gr >= NL
    requires mode >= NL && !f.expedite && !f.convdeadlk
    ensures DoConvert(r, id, mode, f).rc == ConvertCode(r, id, r.grant[Index(r.grant, id)].gr, mode, f)
    ensures DoConvert(r, id, mode, f).before == []
  {
    var l0 := r.grant[Index(r.grant, id)];
    var l := SetConvert(l0, mode, f);
    var r1 := r.(grant := Replace(r.grant, l));
    SameHolders(r, l0, l);
    SameAnswer(r, id, mode, f);
    JudgeExactly(r1, l);
    NowAnswers(r1, l);
  }

  /** The code, and the grants before the reply, are those of the first half. */
  lemma SameAnswer(r: Res, id: LkId, mode: Mode, f: Flags)
    requires Live(r.convert) && Has(r.grant, id)
    ensures
      var l := SetConvert(r.grant[Index(r.grant, id)], mode, f);
      var o, n := DoConvert(r, id, mode, f), ConvertNow(r.(grant := Replace(r.grant, l)), l);
      o.rc == n.rc && o.before == n.before && (n.rc != Ok ==> o.res == n.res)
  {
  }

  /** Writing down what is asked for changes no holder. */
  lemma SameHolders(r: Res, l0: Lock, l: Lock)
    requires WellShaped(r) && l0 in r.grant && l.id == l0.id && l.gr == l0.gr
    ensures var s := r.(grant := Replace(r.grant, l));
      && WellShaped(s) && l in s.grant
      && (forall m :: Free(s, l.id, m) <==> Free(r, l.id, m))
      && (forall m :: Awaited(s, l.id, m) <==> Awaited(r, l.id, m))
  {
    NotKnown(r, l.id);
    SameLock(r.grant, l.id);
    ReplaceMembers(r.grant, l);
    var s := r.(grant := Replace(r.grant, l));
    assert forall x: Lock :: x.id != l.id ==> (Holds(s, x) <==> Holds(r, x));
  }

  lemma NowAnswers(r: Res, l: Lock)
    requires Live(r.convert) && !l.demoted
    ensures
      var v, o := Judge(r, l, true), ConvertNow(r, l);
      && (v.granted ==> o.rc == Ok)
      && (!v.granted && !v.lock.demoted ==>
            o.rc == if v.deadlk && !l.flags.nodlckwt then Deadlk else if l.flags.noqueue then Again else InProgress)
      && (!v.lock.demoted ==> o.before == [])
  {
  }

  /** A conversion that may be demoted is never refused on account of a deadlock.  It is granted if that is possible
      at once; if it is in a deadlock, its mode is taken away, and it is queued without a mode or granted after the
      walk; otherwise it is queued with its mode. */
  lemma DemotableAnswer(r: Res, id: LkId, mode: Mode, f: Flags)
    requires Tidy(r) && Has(r.grant, id) && r.grant[Index(r.grant, id)].gr >= NL
    requires ConvertArgs(r.grant[Index(r.grant, id)].gr, mode, f) && f.convdeadlk
    ensures
      var gr := r.grant[Index(r.grant, id)].gr;
      var o := DoConvert(r, id, mode, f);
      && (o.rc == Ok || o.rc == InProgress)
      && (GrantedNow(r, id, gr, mode, f) ==> o.rc == Ok && o.before == [])
      && (!GrantedNow(r, id, gr, mode, f) && !Awaited(r, id, gr) ==> o.rc == InProgress && o.before == [])
      && (o.rc == InProgress ==>
            exists l :: l in o.res.convert && l.id == id && l.rq == mode && l.demoted == Awaited(r, id, gr)
                        && l.gr == if Awaited(r, id, gr) then NL else gr)
  {
    var l0 := r.grant[Index(r.grant, id)];
    var l := SetConvert(l0, mode, f);
    var r1 := r.(grant := Replace(r.grant, l));
    SameHolders(r, l0, l);
    SameAnswer(r, id, mode, f);
    DemotableNow(r1, l);
  }

  lemma DemotableNow(r: Res, l: Lock)
    requires WellShaped(r) && Live(r.convert) && l in r.grant && l.gr >= NL && !l.demoted
    requires l.flags.convdeadlk && !l.flags.noqueue && !l.flags.expedite
    ensures
      var now, deadlock, o := GrantedNow(r, l.id, l.gr, l.rq, l.flags), Awaited(r, l.id, l.gr), ConvertNow(r, l);
      && (o.rc == Ok || o.rc == InProgress)
      && (now ==> o.rc == Ok && o.before == [])
      && (!now && !deadlock ==> o.rc == InProgress && o.before == [])
      && (o.rc == InProgress ==>
            l.(demoted := deadlock, gr := if deadlock then NL else l.gr) in o.res.convert)
  {
    JudgeExactly(r, l);
    NowAnswers(r, l);
    QueuedLast(r, l);
    if Judge(r, l, true).lock.demoted {
      WhenDemoted(r, l);
      DemotedAnswer(r, l);
    }
  }

  lemma DemotedAnswer(r: Res, l: Lock)
    requires Live(r.convert) && !l.demoted && !l.flags.noqueue && Judge(r, l, true).lock.demoted
    ensures ConvertNow(r, l).rc == Ok || ConvertNow(r, l).rc == InProgress
  {
    WhenDemoted(r, l);
  }

  lemma QueuedLast(r: Res, l: Lock)
    requires Live(r.convert) && !l.demoted
    ensures ConvertNow(r, l).rc == InProgress ==> Judge(r, l, true).lock in ConvertNow(r, l).res.convert
  {
  }

  /** An operation on a lock that is not where it would have to be is answered so, and changes nothing: a conversion of
      a lock that is queued, and any operation on a lock that does not exist.  (A cancel of a granted lock forgets what
      the lock last asked for.) */
  lemma MisplacedOperations(r: Res, id: LkId, mode: Mode, f: Flags)
    requires WellShaped(r)
    ensures !Has(r.grant, id) ==> DoConvert(r, id, mode, f) == Outcome(r, if Known(r, id) then Busy else NoEnt, [], [])
    ensures !Known(r, id) ==> DoUnlock(r, id) == DoCancel(r, id) == Outcome(r, NoEnt, [], [])
    ensures Known(r, id) ==> DoUnlock(r, id).rc == Unlocked
    ensures Known(r, id) ==> DoCancel(r, id).rc == if Has(r.grant, id) then Nothing else Cancelled
  {
  }

  /** No conversion with QUECVT is granted before one that was queued when it was asked for. */
  lemma QuecvtWaits(r: Res, id: LkId, mode: Mode, f: Flags)
    requires Sound(r) && Has(r.grant, id) && mode >= NL && !f.expedite && f.quecvt
    ensures var o := DoConvert(r, id, mode, f);
      o.rc == Ok ==> forall x :: x in r.convert ==> x.id in o.before
  {
    var l0 := r.grant[Index(r.grant, id)];
    var l := SetConvert(l0, mode, f);
    var r1 := r.(grant := Replace(r.grant, l));
    SameHolders(r, l0, l);
    RewriteEvolves(r, l0, l);
    SameAnswer(r, id, mode, f);
    JudgeExactly(r1, l);
    if Judge(r1, l, true).lock.demoted {
      AllServed(r1, l);
    }
  }

  lemma AllServed(r: Res, l: Lock)
    requires Sound(r) && l in r.grant && !l.demoted && l.flags.quecvt && !l.flags.expedite
    requires Judge(r, l, true).lock.demoted
    ensures ConvertNow(r, l).rc == Ok ==> forall x :: x in r.convert ==> x.id in ConvertNow(r, l).before
  {
    var m := Judge(r, l, true).lock;
    WhenDemoted(r, l);
    DemotedThen(r, l);
    RewriteEvolves(r, l, m);
    GrantedAfterWalk(r.(grant := Replace(r.grant, m)), m);
    EmptiedMeansServed(r.(grant := Replace(r.grant, m)));
  }

  lemma GrantedAfterWalk(r: Res, m: Lock)
    requires Live(r.convert) && m.demoted && m.gr == NL && m.flags.quecvt && !m.flags.expedite
    ensures var o, s := ConvertRest(r, m), SettleConvert(r, false);
      o.before == s.grants && (o.rc == Ok ==> s.res.convert == [])
  {
  }

  /** A walk that empties the convert queue has granted everybody on it. */
  lemma EmptiedMeansServed(r: Res)
    requires Sound(r)
    ensures var s := SettleConvert(r, false);
      s.res.convert == [] ==> forall x :: x in r.convert ==> x.id in s.grants
  {
    SettleConvertEvolves(r, false);
    var s := SettleConvert(r, false);
    if s.res.convert == [] {
      forall x | x in r.convert ensures x.id in s.grants {
        LookupOn(r, Converting, x);
        assert Change(Lookup(r, x.id), Lookup(s.res, x.id), x.id in s.grants);
      }
    }
  }
}

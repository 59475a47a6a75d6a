/** Order on the queues: no conversion deadlock between two queued conversions, and first come first
    served. */
module Order {
  import opened Modes
  import opened Resource
  import opened Shape
  import opened Safety
  import opened Evolution
  import opened Operations
  import opened Quiescence

  /** A later conversion's granted mode never blocks an earlier conversion. */
  ghost predicate Ordered(q: seq<Lock>) {
    forall i, j :: 0 <= i < j < |q| ==> Compat(q[j].gr, q[i].rq)
  }

  lemma {:induction false} ScanOrdered(q: seq<Lock>, l: Lock)
    requires forall x :: x in q && x.id != l.id ==> Compat(l.gr, x.rq) || Compat(x.gr, l.rq)
    ensures !Deadlocks(q, l, true)
  {
    if q != [] {
      ScanOrdered(q[1..], l);
    }
  }

  lemma {:induction false} ScanTo(q: seq<Lock>, k: nat, l: Lock)
    requires Ordered(q) && UniqueIds(q) && k < |q| && q[k] == l
    ensures !Deadlocks(q, l, false)
  {
    if k == 0 {
      assert forall x :: x in q[1..] ==> exists j :: 1 <= j < |q| && q[j] == x;
      ScanOrdered(q[1..], l);
    } else {
      ScanTo(q[1..], k - 1, l);
    }
  }

  /** The walk that detects deadlocks finds none among locks that are already queued, so its second branch
      never fires, a walk over the queue demotes nothing, and the head waits for granted locks only. */
  lemma NoQueuedDeadlock(r: Res)
    requires Sound(r) && Ordered(r.convert)
    ensures forall l :: l in r.convert ==> !Deadlocks(r.convert, l, false)
    ensures !ConvertPass(r, 0).demoted
    ensures r.convert != [] ==> !Conflicts(r.convert, r.convert[0])
  {
    forall l | l in r.convert ensures !Deadlocks(r.convert, l, false) {
      var k :| 0 <= k < |r.convert| && r.convert[k] == l;
      ScanTo(r.convert, k, l);
    }
    CalmPassDoesNotDemote(r, 0);
  }

  // ----- the order is kept

  lemma {:induction false} NewcomerFits(q: seq<Lock>, l: Lock)
    requires !Deadlocks(q, l, false) && forall x :: x in q ==> x.id != l.id
    ensures forall x :: x in q ==> Compat(l.gr, x.rq)
  {
    if q != [] {
      NewcomerFits(q[1..], l);
    }
  }

  lemma ConvertStepOrdered(r: Res, i: nat)
    requires Sound(r) && i < |r.convert| && Ordered(r.convert)
    ensures Ordered(ConvertStep(r, i).0.convert)
  {
    var l := r.convert[i];
    assert l in r.convert;
    var v := Judge(r, l, false);
    if v.granted {
      GrantedElsewhere(r, l);
      OrderedAfterDrop(r.convert, i);
    } else {
      OrderedAfterDemotion(r.convert, i, v.lock);
    }
  }

  lemma OrderedAfterDrop(q: seq<Lock>, i: nat)
    requires i < |q| && Ordered(q)
    ensures Ordered(DropAt(q, i))
  {
  }

  lemma OrderedAfterDemotion(q: seq<Lock>, i: nat, m: Lock)
    requires i < |q| && Ordered(q) && m.rq == q[i].rq && (m.gr == q[i].gr || m.gr == NL)
    ensures Ordered(q[i := m])
  {
  }

  lemma {:induction false} ConvertPassOrdered(r: Res, i: nat)
    requires Sound(r) && i <= |r.convert| && Ordered(r.convert)
    ensures Ordered(ConvertPass(r, i).res.convert)
    decreases |r.convert| - i
  {
    if i < |r.convert| {
      ConvertStepEvolves(r, i);
      ConvertStepOrdered(r, i);
      var (next, j) := ConvertStep(r, i);
      ConvertPassOrdered(next, j);
    }
  }

  lemma {:induction false} SettleConvertOrdered(r: Res, quit: bool)
    requires Sound(r) && Ordered(r.convert)
    ensures Ordered(SettleConvert(r, quit).res.convert)
    decreases Weight(r.convert), !quit
  {
    ConvertPassEvolves(r, 0);
    ConvertPassOrdered(r, 0);
    var p := ConvertPass(r, 0);
    if p.granted {
      SettleConvertOrdered(p.res, quit);
    } else if p.demoted && !quit {
      SettleConvertOrdered(p.res, true);
    }
  }

  lemma ConvertOrdered(r: Res, id: LkId, mode: Mode, f: Flags)
    requires Sound(r) && Stuck(r) && Ordered(r.convert) && !f.headque && !f.nodlckwt
    requires Lookup(r, id).Some? && Lookup(r, id).value.status == Granted ==>
      ConvertArgs(Lookup(r, id).value.lock.gr, mode, f)
    ensures Ordered(DoConvert(r, id, mode, f).res.convert)
  {
    if Has(r.grant, id) {
      var l0 := r.grant[Index(r.grant, id)];
      var l := SetConvert(l0, mode, f);
      RewriteEvolves(r, l0, l);
      var r1 := r.(grant := Replace(r.grant, l));
      RewriteStuck(r, l0, l);
      ConvertNowOrdered(r1, l);
      ConvertNowEvolves(r1, l);
      var o := ConvertNow(r1, l);
      if o.rc == Ok {
        SettleConvertOrdered(o.res, false);
      }
    }
  }

  lemma ConvertNowOrdered(r: Res, l: Lock)
    requires Sound(r) && Ordered(r.convert) && l in r.grant && !l.demoted
    requires ConvertArgs(l.gr, l.rq, l.flags) && !l.flags.headque && !l.flags.nodlckwt
    ensures Ordered(ConvertNow(r, l).res.convert)
  {
    var v := Judge(r, l, true);
    if !v.granted && !v.deadlk {
      RewriteEvolves(r, l, v.lock);
      RefusedFits(r, l);
      ConvertRestOrdered(r.(grant := Replace(r.grant, v.lock)), v.lock);
    }
  }

  /** A conversion that is neither granted nor in a deadlock fits at the end of the queue. */
  lemma RefusedFits(r: Res, l: Lock)
    requires WellShaped(r) && Ordered(r.convert) && l in r.grant && !l.demoted && l.gr != IV
    requires !Judge(r, l, true).granted && !Judge(r, l, true).deadlk
    ensures var m := Judge(r, l, true).lock;
      && m.flags == l.flags && (m.demoted ==> m.gr == NL)
      && (!m.flags.noqueue && !m.demoted ==> Ordered(r.convert + [m]))
  {
    if !Judge(r, l, true).lock.demoted && !l.flags.noqueue {
      NotKnown(r, l.id);
      NewcomerFits(r.convert, l);
    }
  }

  lemma ConvertRestOrdered(r: Res, l: Lock)
    requires Sound(r) && Ordered(r.convert)
    requires !l.flags.headque && (l.demoted ==> l.gr == NL)
    requires !l.flags.noqueue && !l.demoted ==> Ordered(r.convert + [l])
    ensures Ordered(ConvertRest(r, l).res.convert)
  {
    if l.demoted {
      SettleConvertOrdered(r, false);
      var q := SettleConvert(r, false).res.convert;
      assert Ordered(q + [l]);
    }
  }

  // ----- first come, first served

  function Ids(q: seq<Lock>): (s: seq<LkId>)
    ensures |s| == |q| && forall i :: 0 <= i < |q| ==> s[i] == q[i].id
  {
    seq(|q|, i requires 0 <= i < |q| => q[i].id)
  }

  ghost predicate InTurn(r: Res) {
    forall l :: l in r.convert || l in r.wait ==> !l.flags.noorder
  }

  /** The locks granted are exactly those that stood first: conversions before waiters, each in the order of
      arrival, and no waiter while a conversion is left. */
  ghost predicate InArrivalOrder(r: Res, s: Res, grants: seq<LkId>) {
    Served(Ids(r.convert), Ids(r.wait), Ids(s.convert), Ids(s.wait), grants)
  }

  /** From queues `c` and `w` to `c'` and `w'`: a prefix of each was served, that of `c` first, and `w` only
      once `c` was exhausted. */
  ghost predicate Served<T>(c: seq<T>, w: seq<T>, c': seq<T>, w': seq<T>, grants: seq<T>) {
    && |c'| <= |c| && |w'| <= |w|
    && c[|c| - |c'|..] == c' && w[|w| - |w'|..] == w'
    && grants == c[..|c| - |c'|] + w[..|w| - |w'|]
    && (|w'| < |w| ==> c' == [])
  }

  /** Past the head of the convert queue nothing is granted. */
  lemma {:induction false} PassBehindHead(r: Res, i: nat)
    requires Sound(r) && InTurn(r) && 0 < i <= |r.convert|
    ensures var p := ConvertPass(r, i);
      !p.granted && p.grants == [] && Ids(p.res.convert) == Ids(r.convert) && InTurn(p.res)
    decreases |r.convert| - i
  {
    if i < |r.convert| {
      StepBehindHead(r, i);
      PassBehindHead(ConvertStep(r, i).0, i + 1);
    }
  }

  lemma StepBehindHead(r: Res, i: nat)
    requires Sound(r) && InTurn(r) && 0 < i < |r.convert|
    ensures !Judge(r, r.convert[i], false).granted
    ensures
      var (next, j) := ConvertStep(r, i);
      j == i + 1 && Sound(next) && InTurn(next) && Ids(next.convert) == Ids(r.convert)
  {
    var l := r.convert[i];
    assert l in r.convert && l.id != r.convert[0].id;
    BehindHead(r, l);
    ConvertStepEvolves(r, i);
  }

  lemma BehindHead(r: Res, l: Lock)
    requires r.convert != [] && r.convert[0].id != l.id && !l.flags.noorder && !l.flags.expedite && l.gr != IV
    ensures !Judge(r, l, false).granted
  {
  }

  /** Taking the head off a queue and then serving the rest in order serves the whole in order. */
  lemma ServedHead<T>(x: T, c: seq<T>, w: seq<T>, c': seq<T>, w': seq<T>, g: seq<T>)
    requires Served(c, w, c', w', g)
    ensures Served([x] + c, w, c', w', [x] + g)
    ensures c == [] ==> Served(c, [x] + w, c', w', [x] + g)
  {
    var k, m := |c| - |c'|, |w| - |w'|;
    assert ([x] + c)[1 + k..] == c[k..];
    assert ([x] + c)[..1 + k] == [x] + c[..k];
    assert ([x] + w)[1 + m..] == w[m..];
    assert ([x] + w)[..1 + m] == [x] + w[..m];
    assert [x] + (c[..k] + w[..m]) == ([x] + c[..k]) + w[..m];
  }

  lemma TakenTwice<T>(q: seq<T>, k: nat, n: nat)
    requires k + n <= |q|
    ensures q[k + n..] == q[k..][n..] && q[..k + n] == q[..k] + q[k..][..n]
  {
  }

  lemma ServedTrans<T>(c: seq<T>, w: seq<T>, c': seq<T>, w': seq<T>, c'': seq<T>, w'': seq<T>, g: seq<T>, h: seq<T>)
    requires Served(c, w, c', w', g) && Served(c', w', c'', w'', h)
    requires |w| == |w'| || |c'| == |c''|
    ensures Served(c, w, c'', w'', g + h)
  {
    var k, m, k', m' := |c| - |c'|, |w| - |w'|, |c'| - |c''|, |w'| - |w''|;
    TakenTwice(c, k, k');
    TakenTwice(w, m, m');
    assert g + h == (c[..k] + w[..m]) + (c'[..k'] + w'[..m']);
    Regroup(c[..k], w[..m], c'[..k'], w'[..m']);
  }

  lemma Regroup<T>(a: seq<T>, b: seq<T>, a': seq<T>, b': seq<T>)
    requires b == [] || a' == []
    ensures (a + b) + (a' + b') == (a + a') + (b + b')
  {
  }

  lemma Untouched(r: Res, s: Res)
    requires Ids(s.convert) == Ids(r.convert) && s.wait == r.wait
    ensures InArrivalOrder(r, s, [])
  {
  }

  lemma HeadOfConvert(r: Res, s: Res, t: Res, g: seq<LkId>)
    requires r.convert != [] && s.convert == r.convert[1..] && s.wait == r.wait && InArrivalOrder(s, t, g)
    ensures InArrivalOrder(r, t, [r.convert[0].id] + g)
  {
    ServedHead(r.convert[0].id, Ids(s.convert), Ids(s.wait), Ids(t.convert), Ids(t.wait), g);
    assert Ids(r.convert) == [r.convert[0].id] + Ids(s.convert);
  }

  lemma HeadOfWait(r: Res, s: Res, t: Res, g: seq<LkId>)
    requires r.wait != [] && s.wait == r.wait[1..] && s.convert == r.convert == [] && InArrivalOrder(s, t, g)
    ensures InArrivalOrder(r, t, [r.wait[0].id] + g)
  {
    ServedHead(r.wait[0].id, Ids(s.convert), Ids(s.wait), Ids(t.convert), Ids(t.wait), g);
    assert Ids(r.wait) == [r.wait[0].id] + Ids(s.wait);
  }

  /** The first step of a walk either takes the head off the queue or leaves the order as it was. */
  lemma FirstStep(r: Res)
    requires Sound(r) && InTurn(r) && r.convert != []
    ensures
      var (next, j) := ConvertStep(r, 0);
      && Sound(next) && InTurn(next) && next.wait == r.wait
      && if Judge(r, r.convert[0], false).granted then j == 0 && next.convert == r.convert[1..]
         else j == 1 && Ids(next.convert) == Ids(r.convert)
  {
    assert r.convert[0] in r.convert;
    ConvertStepEvolves(r, 0);
  }

  lemma {:induction false} PassFromHead(r: Res)
    requires Sound(r) && InTurn(r)
    ensures var p := ConvertPass(r, 0); InArrivalOrder(r, p.res, p.grants) && InTurn(p.res)
    decreases |r.convert|
  {
    if r.convert == [] {
      Untouched(r, r);
    } else {
      FirstStep(r);
      var (next, j) := ConvertStep(r, 0);
      var p := ConvertPass(next, j);
      if j == 0 {
        PassFromHead(next);
        HeadOfConvert(r, next, p.res, p.grants);
      } else {
        PassBehindHead(next, 1);
        Untouched(r, p.res);
      }
    }
  }

  lemma ArrivalTrans(r: Res, s: Res, t: Res, g: seq<LkId>, h: seq<LkId>)
    requires InArrivalOrder(r, s, g) && InArrivalOrder(s, t, h)
    requires |r.wait| == |s.wait| || |s.convert| == |t.convert|
    ensures InArrivalOrder(r, t, g + h)
  {
    ServedTrans(Ids(r.convert), Ids(r.wait), Ids(s.convert), Ids(s.wait), Ids(t.convert), Ids(t.wait), g, h);
  }

  lemma {:induction false} SettleConvertInOrder(r: Res, quit: bool)
    requires Sound(r) && InTurn(r)
    ensures var s := SettleConvert(r, quit); InArrivalOrder(r, s.res, s.grants) && InTurn(s.res)
    decreases Weight(r.convert), !quit
  {
    ConvertPassEvolves(r, 0);
    PassFromHead(r);
    var p := ConvertPass(r, 0);
    if p.granted {
      SettleConvertInOrder(p.res, quit);
      ArrivalTrans(r, p.res, SettleConvert(p.res, quit).res, p.grants, SettleConvert(p.res, quit).grants);
    } else if p.demoted && !quit {
      SettleConvertInOrder(p.res, true);
      ArrivalTrans(r, p.res, SettleConvert(p.res, true).res, p.grants, SettleConvert(p.res, true).grants);
    }
  }

  lemma {:induction false} WaitBehindHead(r: Res, i: nat)
    requires Sound(r) && InTurn(r) && i <= |r.wait| && (i > 0 || r.convert != [])
    ensures WaitPass(r, i) == Settled(r, [])
    decreases |r.wait| - i
  {
    if i < |r.wait| {
      var l := r.wait[i];
      assert l in r.wait && (i > 0 ==> l.id != r.wait[0].id);
      assert r.wait[i := l] == r.wait;
      assert r.(wait := r.wait[i := l]) == r;
      WaitBehindHead(r, i + 1);
    }
  }

  lemma {:induction false} WaitInOrder(r: Res)
    requires Sound(r) && InTurn(r)
    ensures var s := WaitPass(r, 0); InArrivalOrder(r, s.res, s.grants)
    decreases |r.wait|
  {
    if r.convert != [] {
      WaitBehindHead(r, 0);
      Untouched(r, r);
    } else if r.wait == [] {
      Untouched(r, r);
    } else {
      var l := r.wait[0];
      assert l in r.wait;
      if Judge(r, l, false).granted {
        WaitStepEvolves(r, 0);
        var next := GrantWait(r, 0, Judge(r, l, false).lock);
        assert next.wait == r.wait[1..];
        WaitInOrder(next);
        HeadOfWait(r, next, WaitPass(next, 0).res, WaitPass(next, 0).grants);
      } else {
        assert r.wait[0 := l] == r.wait;
        assert r.(wait := r.wait[0 := l]) == r;
        WaitBehindHead(r, 1);
        Untouched(r, r);
      }
    }
  }

  /** No queued lock is overtaken when the queues are re-examined. */
  lemma SettleAllInOrder(r: Res)
    requires Sound(r) && InTurn(r)
    ensures var s := SettleAll(r); InArrivalOrder(r, s.res, s.grants)
  {
    SettleConvertEvolves(r, false);
    SettleConvertInOrder(r, false);
    var c := SettleConvert(r, false);
    WaitInOrder(c.res);
    var w := WaitPass(c.res, 0);
    ArrivalTrans(r, c.res, w.res, c.grants, w.grants);
  }

  /** A new request is granted at once only when nobody is queued, unless its flags say otherwise. */
  lemma RequestWaitsItsTurn(r: Res, l: Lock)
    requires l.gr == IV && !l.flags.expedite && !l.flags.noorder
    ensures DoRequest(r, l).rc == Ok ==> r.convert == [] && r.wait == []
  {
  }
}

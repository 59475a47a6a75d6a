/** Places in the queues, over every run and all flags: nobody changes places with another, newcomers come last or,
    if they ask for it, first, and no conversion that may be demoted is left in a deadlock. */
module Places {
  import opened Modes
  import opened Resource
  import opened Shape
  import opened Safety
  import opened Evolution
  import opened Operations
  import opened Quiescence
  import opened NoLostGrant
  import opened Order
  import opened Runs

  /** `a` stands somewhere before `b`. */
  ghost predicate Precedes<T>(q: seq<T>, a: T, b: T) {
    exists i, j :: 0 <= i < j < |q| && q[i] == a && q[j] == b
  }

  /** Whoever is left stands as before. */
  ghost predicate SameOrder<T(!new)>(p: seq<T>, q: seq<T>) {
    forall a, b :: Precedes(q, a, b) ==> Precedes(p, a, b)
  }

  lemma OrderWithout<T(!new)>(q: seq<T>, i: nat)
    requires i < |q|
    ensures SameOrder(q, q[..i] + q[i + 1..])
  {
    var d := q[..i] + q[i + 1..];
    forall a, b | Precedes(d, a, b) ensures Precedes(q, a, b) {
      var k, m :| 0 <= k < m < |d| && d[k] == a && d[m] == b;
      assert q[if k < i then k else k + 1] == a && q[if m < i then m else m + 1] == b;
    }
  }

  lemma DropAtOrder(q: seq<Lock>, i: nat)
    requires i < |q|
    ensures SameOrder(Ids(q), Ids(DropAt(q, i)))
  {
    OrderWithout(Ids(q), i);
    assert Ids(DropAt(q, i)) == Ids(q)[..i] + Ids(q)[i + 1..];
  }

  lemma DropOrder(q: seq<Lock>, id: LkId)
    ensures SameOrder(Ids(q), Ids(Drop(q, id)))
  {
    if Has(q, id) {
      DropAtOrder(q, Index(q, id));
    }
  }

  /** Both queues stand as before, but for those who have left. */
  ghost predicate KeepPlaces(r: Res, s: Res) {
    SameOrder(Ids(r.convert), Ids(s.convert)) && SameOrder(Ids(r.wait), Ids(s.wait))
  }

  lemma StepPlaces(r: Res, i: nat)
    requires Live(r.convert) && i < |r.convert|
    ensures KeepPlaces(r, ConvertStep(r, i).0)
  {
    var s := ConvertStep(r, i).0;
    if |s.convert| < |r.convert| {
      DropAtOrder(r.convert, i);
    } else {
      SameIds(r.convert, i, s.convert[i]);
    }
  }

  lemma SameIds(q: seq<Lock>, i: nat, l: Lock)
    requires i < |q| && l.id == q[i].id
    ensures Ids(q[i := l]) == Ids(q)
  {
  }

  lemma {:induction false} PassPlaces(r: Res, i: nat)
    requires Live(r.convert) && i <= |r.convert|
    ensures KeepPlaces(r, ConvertPass(r, i).res)
    decreases |r.convert| - i
  {
    if i < |r.convert| {
      StepPlaces(r, i);
      var (next, k) := ConvertStep(r, i);
      PassPlaces(next, k);
    }
  }

  lemma {:induction false} SettleConvertPlaces(r: Res, quit: bool)
    requires Live(r.convert)
    ensures KeepPlaces(r, SettleConvert(r, quit).res)
    decreases Weight(r.convert), !quit
  {
    PassPlaces(r, 0);
    var p := ConvertPass(r, 0);
    if p.granted {
      SettleConvertPlaces(p.res, quit);
    } else if p.demoted && !quit {
      SettleConvertPlaces(p.res, true);
    }
  }

  lemma {:induction false} WaitPassPlaces(r: Res, i: nat)
    requires Safe(r)
    ensures KeepPlaces(r, WaitPass(r, i).res)
    decreases |r.wait| - i
  {
    if i < |r.wait| {
      var l := r.wait[i];
      var v := Judge(r, l, false);
      WaiterJudged(r, l);
      if v.granted {
        GrantWaitSafe(r, i, v.lock);
        DropAtOrder(r.wait, i);
        WaitPassPlaces(GrantWait(r, i, v.lock), i);
      } else {
        assert r.wait[i := v.lock] == r.wait;
        assert r.(wait := r.wait[i := v.lock]) == r;
        WaitPassPlaces(r, i + 1);
      }
    }
  }

  lemma SettleAllPlaces(r: Res)
    requires Safe(r)
    ensures KeepPlaces(r, SettleAll(r).res)
  {
    SettleConvertPlaces(r, false);
    SettleConvertSafe(r, false);
    WaitPassPlaces(SettleConvert(r, false).res, 0);
  }

  // ----- newcomers

  /** `id` is new on the queue: behind or, with HEADQUE, before all the others, who stand as they stood. */
  ghost predicate Joins(p: seq<LkId>, q: seq<LkId>, id: LkId, headque: bool) {
    |q| > 0 && if headque then q[0] == id && SameOrder(p, q[1..]) else q[|q| - 1] == id && SameOrder(p, q[..|q| - 1])
  }

  lemma EnqueueJoins(p: seq<Lock>, q: seq<Lock>, l: Lock)
    requires SameOrder(Ids(p), Ids(q))
    ensures Joins(Ids(p), Ids(Enqueue(q, l)), l.id, l.flags.headque)
  {
    var e := Ids(Enqueue(q, l));
    if l.flags.headque {
      assert e[1..] == Ids(q);
    } else {
      assert e[..|e| - 1] == Ids(q);
    }
  }

  /** The places after an operation on `op.id`: a request that has to wait joins the waiters, a conversion that has to
      wait the conversions, and nobody else changes places. */
  ghost predicate PlacesAfter(r: Res, s: Res, op: Op, rc: Rc) {
    && (if op.Convert? && rc == InProgress then Joins(Ids(r.convert), Ids(s.convert), op.id, op.flags.headque)
        else SameOrder(Ids(r.convert), Ids(s.convert)))
    && (if op.Request? && rc == InProgress then Joins(Ids(r.wait), Ids(s.wait), op.id, op.flags.headque)
        else SameOrder(Ids(r.wait), Ids(s.wait)))
  }

  lemma RequestPlaces(r: Res, id: LkId, mode: Mode, f: Flags)
    ensures var o := DoRequest(r, Fresh(id, mode, f)); PlacesAfter(r, o.res, Request(id, mode, f), o.rc)
  {
    EnqueueJoins(r.wait, r.wait, Fresh(id, mode, f));
  }

  lemma ConvertPlaces(r: Res, id: LkId, mode: Mode, f: Flags)
    requires Tidy(r) && mode >= NL && !f.expedite
    ensures var o := DoConvert(r, id, mode, f); PlacesAfter(r, o.res, Convert(id, mode, f), o.rc)
  {
    if Has(r.grant, id) {
      var l0 := r.grant[Index(r.grant, id)];
      var l := SetConvert(l0, mode, f);
      RewriteTidy(r, l0, l);
      var r1 := r.(grant := Replace(r.grant, l));
      NowPlaces(r1, l);
      if ConvertNow(r1, l).rc == Ok {
        GrantedNowTidy(r1, l);
        SettleAllPlaces(ConvertNow(r1, l).res);
      }
    }
  }

  lemma NowPlaces(r: Res, l: Lock)
    requires Tidy(r) && l in r.grant && l.rq >= NL && !l.flags.expedite && !l.demoted
    ensures var o := ConvertNow(r, l);
      if o.rc == InProgress then
        Joins(Ids(r.convert), Ids(o.res.convert), l.id, l.flags.headque) && o.res.wait == r.wait
      else KeepPlaces(r, o.res)
  {
    if Judge(r, l, true).lock.demoted {
      WhenDemoted(r, l);
      DemotedPlaces(r, l, Judge(r, l, true).lock);
    } else {
      EnqueueJoins(r.convert, r.convert, l);
    }
  }

  lemma DemotedPlaces(r: Res, l: Lock, m: Lock)
    requires Live(r.convert) && m == Judge(r, l, true).lock == l.(gr := NL, demoted := true)
    requires !Judge(r, l, true).granted && !Judge(r, l, true).deadlk && !l.flags.noqueue
    ensures var o := ConvertNow(r, l);
      if o.rc == InProgress then
        Joins(Ids(r.convert), Ids(o.res.convert), l.id, l.flags.headque) && o.res.wait == r.wait
      else KeepPlaces(r, o.res)
  {
    var r1 := r.(grant := Replace(r.grant, m));
    SettleConvertPlaces(r1, false);
    EnqueueJoins(r.convert, SettleConvert(r1, false).res.convert, m);
  }

  lemma LeavePlaces(r: Res, id: LkId)
    requires Tidy(r)
    ensures var u := DoUnlock(r, id); PlacesAfter(r, u.res, Unlock(id), u.rc)
    ensures var c := DoCancel(r, id); PlacesAfter(r, c.res, Cancel(id), c.rc)
  {
    DropTidy(r, id);
    DropOrder(r.convert, id);
    DropOrder(r.wait, id);
    SettleAllPlaces(Res(Drop(r.grant, id), Drop(r.convert, id), Drop(r.wait, id)));
    SettleAllPlaces(r.(wait := Drop(r.wait, id)));
    if Has(r.convert, id) {
      RevertTidy(r, id);
      var l := r.convert[Index(r.convert, id)].(rq := IV);
      SettleAllPlaces(r.(grant := InsertOrdered(r.grant, l, l.gr), convert := Drop(r.convert, id)));
    }
  }

  /** In no step of any run, whatever flags are used, does anybody change places with another.  (That the queue is live
      is true of every run, by EveryRunIsTidy; Apply asks for it.) */
  lemma NobodyChangesPlaces(rs: seq<Res>, ops: seq<Op>, n: nat)
    requires IsRun(rs, ops) && n < |ops| && Live(rs[n].convert)
    ensures PlacesAfter(rs[n], rs[n + 1], ops[n], Apply(rs[n], ops[n]).rc)
  {
    EveryRunIsTidy(rs, ops, n);
    assert Step(rs[n], ops[n], rs[n + 1]);
    match ops[n]
    case Request(id, mode, f) => RequestPlaces(rs[n], id, mode, f);
    case Convert(id, mode, f) => ConvertPlaces(rs[n], id, mode, f);
    case Unlock(id) => LeavePlaces(rs[n], id);
    case Cancel(id) => LeavePlaces(rs[n], id);
  }

  // ----- deadlocks that can be broken

  /** Nobody who may be demoted is in a deadlock with another queued conversion: all that can be done about deadlocks
      has been done. */
  ghost predicate AllCalm(r: Res) {
    forall l :: l in r.convert && l.flags.convdeadlk ==> !Deadlocks(r.convert, l, false)
  }

  lemma {:induction false} SettleConvertCalm(r: Res, quit: bool)
    requires Tidy(r)
    ensures AllCalm(SettleConvert(r, quit).res)
    decreases Weight(r.convert), !quit
  {
    ConvertPassTidy(r, 0);
    ConvertPassCalms(r, 0);
    var p := ConvertPass(r, 0);
    if p.granted {
      SettleConvertCalm(p.res, quit);
    } else if p.demoted && !quit {
      SettleConvertCalm(p.res, true);
    }
  }

  /** ... whenever the queues have been re-examined. */
  lemma SettleAllCalm(r: Res)
    requires Tidy(r)
    ensures AllCalm(SettleAll(r).res)
  {
    SettleConvertCalm(r, false);
  }
}

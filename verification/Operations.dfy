/** The four operations as a whole: what each leaves of its own lock, and what it does to the others. */
module Operations {
  import opened Modes
  import opened Resource
  import opened Shape
  import opened Safety
  import opened Evolution

  ghost predicate Sound(r: Res) {
    Safe(r) && Proper(r)
  }

  /** From `r` to `s`, every lock but `id` is left alone or granted and reported. */
  ghost predicate OthersEvolve(r: Res, s: Res, id: LkId, grants: seq<LkId>) {
    && Distinct(grants)
    && id !in grants
    && (forall x :: x != id ==> Change(Lookup(r, x), Lookup(s, x), x in grants))
  }

  lemma OthersThen(r: Res, s: Res, t: Res, id: LkId, grants: seq<LkId>)
    requires forall x :: x != id ==> Lookup(s, x) == Lookup(r, x)
    requires Evolves(s, t, grants)
    requires Lookup(s, id) == None || Lookup(s, id).value.status == Granted
    ensures OthersEvolve(r, t, id, grants)
    ensures Lookup(t, id) == Lookup(s, id)
  {
    assert Change(Lookup(s, id), Lookup(t, id), id in grants);
    forall x | x != id ensures Change(Lookup(r, x), Lookup(t, x), x in grants) {
      assert Change(Lookup(s, x), Lookup(t, x), x in grants);
    }
  }

  lemma SettleFirst(r: Res, s: Res, id: LkId)
    requires Sound(s) && forall x :: x != id ==> Lookup(s, x) == Lookup(r, x)
    requires Lookup(s, id) == None || Lookup(s, id).value.status == Granted
    ensures var t := SettleAll(s);
      Sound(t.res) && OthersEvolve(r, t.res, id, t.grants) && Lookup(t.res, id) == Lookup(s, id)
  {
    SettleAllEvolves(s);
    OthersThen(r, s, SettleAll(s).res, id, SettleAll(s).grants);
  }

  lemma OnlyTouches(r: Res, s: Res, id: LkId)
    requires WellShaped(r) && WellShaped(s)
    requires forall st, x: Lock :: x.id != id ==> (On(r, st, x) <==> On(s, st, x))
    ensures forall x :: x != id ==> Lookup(s, x) == Lookup(r, x)
  {
    forall x | x != id ensures Lookup(s, x) == Lookup(r, x) {
      SameElsewhere(r, s, x);
    }
  }

  // ----- request

  /** Granting puts the new record on the granted queue and touches no other lock. */
  lemma GrantHereMembers(r: Res, l: Lock)
    requires WellShaped(r) && !Has(r.convert, l.id) && !Has(r.wait, l.id) && (!Has(r.grant, l.id) ==> l.gr != l.rq)
    ensures On(GrantHere(r, l), Granted, AfterGrant(l))
    ensures forall st, x: Lock :: x.id != l.id ==> (On(r, st, x) <==> On(GrantHere(r, l), st, x))
  {
    NotKnown(r, l.id);
    DropMembers(r.grant, l.id);
    InsertOrderedMembers(Drop(r.grant, l.id), AfterGrant(l), l.rq);
    ReplaceMembers(r.grant, AfterGrant(l));
  }

  lemma GrantHereLookup(r: Res, l: Lock)
    requires WellShaped(r) && !Has(r.convert, l.id) && !Has(r.wait, l.id) && (!Has(r.grant, l.id) ==> l.gr != l.rq)
    requires WellShaped(GrantHere(r, l)) && Proper(r) && l.rq >= NL
    ensures Proper(GrantHere(r, l))
    ensures Lookup(GrantHere(r, l), l.id) == Some(Entry(Granted, AfterGrant(l)))
    ensures forall x :: x != l.id ==> Lookup(GrantHere(r, l), x) == Lookup(r, x)
  {
    GrantHereMembers(r, l);
    var s := GrantHere(r, l);
    LookupOn(s, Granted, AfterGrant(l));
    OnlyTouches(r, s, l.id);
    assert s.convert == r.convert;
    forall x | x in s.grant ensures x.gr >= NL {
      if x.id == l.id {
        LookupOn(s, Granted, x);
      } else {
        assert On(r, Granted, x);
      }
    }
  }

  lemma EnqueueLookup(r: Res, l: Lock)
    requires Safe(r) && Lookup(r, l.id) == None && l.gr == IV && l.rq != IV && !l.flags.expedite
    ensures Lookup(r.(wait := Enqueue(r.wait, l)), l.id) == Some(Entry(Waiting, l))
    ensures forall x :: x != l.id ==> Lookup(r.(wait := Enqueue(r.wait, l)), x) == Lookup(r, x)
  {
    var s := r.(wait := Enqueue(r.wait, l));
    EnqueueWaitSafe(r, l);
    assert On(s, Waiting, l);
    LookupOn(s, Waiting, l);
    OnlyTouches(r, s, l.id);
  }

  lemma RequestGrantedEvolves(r: Res, l: Lock, m: Lock)
    requires Sound(r) && Lookup(r, l.id) == None && l.gr == IV && m.rq >= NL && m.id == l.id && m.gr == IV
    requires Safe(GrantHere(r, m))
    ensures Sound(GrantHere(r, m)) && OthersEvolve(r, GrantHere(r, m), l.id, [])
    ensures Lookup(GrantHere(r, m), l.id) == Some(Entry(Granted, AfterGrant(m)))
  {
    GrantHereLookup(r, m);
  }

  lemma RequestEvolves(r: Res, l: Lock)
    requires Sound(r) && Lookup(r, l.id) == None && l.gr == IV && RequestArgs(l.rq, l.flags)
    ensures
      var o := DoRequest(r, l);
      && Sound(o.res) && o.before == o.after == []
      && OthersEvolve(r, o.res, l.id, [])
      && RequestOutcome(l, o.rc, Lookup(o.res, l.id))
  {
    var v := Judge(r, l, true);
    if v.granted {
      GrantedAsAgreed(r, l, true);
      RequestSafe(r, l);
      RequestGrantedEvolves(r, l, v.lock);
    } else if !l.flags.noqueue {
      RequestSafe(r, l);
      EnqueueLookup(r, l);
    }
  }

  /** The three ends of a request, and where each leaves the lock. */
  ghost predicate RequestOutcome(l: Lock, rc: Rc, e: Option<Entry>) {
    match rc
    case Ok => e.Some? && e.value.status == Granted && GrantOf(l, e.value.lock)
    case InProgress => e == Some(Entry(Waiting, l))
    case _ => rc == Again && e == None
  }

  // ----- conversion

  lemma RewriteEvolves(r: Res, l: Lock, m: Lock)
    requires Sound(r) && l in r.grant && m.id == l.id && (m.gr == l.gr || m.gr == NL)
    ensures var s := r.(grant := Replace(r.grant, m));
      && Sound(s) && m in s.grant && Lookup(s, l.id) == Some(Entry(Granted, m))
      && forall x :: x != l.id ==> Lookup(s, x) == Lookup(r, x)
  {
    var s := r.(grant := Replace(r.grant, m));
    RewriteSafe(r, l, m);
    ReplaceMembers(r.grant, m);
    LookupOn(s, Granted, m);
    OnlyTouches(r, s, l.id);
  }

  lemma GrantHereEvolves(r: Res, l: Lock, m: Lock)
    requires Sound(r) && l in r.grant && m.id == l.id
    requires m.rq >= NL && !m.flags.expedite && Grantable(r, m, true)
    ensures var s := GrantHere(r, m);
      && Sound(s) && Lookup(s, l.id) == Some(Entry(Granted, AfterGrant(m)))
      && forall x :: x != l.id ==> Lookup(s, x) == Lookup(r, x)
  {
    NotKnown(r, l.id);
    VerdictFits(r, m, true);
    GrantHereSafe(r, m);
    GrantHereLookup(r, m);
  }

  lemma ToConvertEvolves(r: Res, l: Lock)
    requires Sound(r) && l in r.grant && !l.flags.expedite && ProperConvert(l)
    ensures var s := r.(grant := Drop(r.grant, l.id), convert := Enqueue(r.convert, l));
      && Sound(s) && Lookup(s, l.id) == Some(Entry(Converting, l))
      && forall x :: x != l.id ==> Lookup(s, x) == Lookup(r, x)
  {
    var s := r.(grant := Drop(r.grant, l.id), convert := Enqueue(r.convert, l));
    ToConvertSafe(r, l);
    DropMembers(r.grant, l.id);
    assert forall x :: x in s.convert <==> x == l || x in r.convert;
    LookupOn(s, Converting, l);
    OnlyTouches(r, s, l.id);
  }

  /** A conversion to null mode, or to the mode already held, is granted at once. */
  lemma EasyConvert(r: Res, l: Lock)
    requires Safe(r) && l in r.grant && l.gr != IV && ConvertArgs(l.gr, l.rq, l.flags)
    requires l.rq <= NL || l.gr == l.rq
    ensures Grantable(r, l, true)
  {
    assert Holds(r, l);
    assert forall x :: Holds(r, x) && x.id != l.id ==> Compat(x.gr, l.rq);
  }

  /** The two ways to be refused: a conversion that must not wait, and one that would wait in a deadlock. */
  predicate Refusal(rc: Rc, f: Flags) {
    (rc == Again && f.noqueue) || (rc == Deadlk && !f.noqueue && !f.nodlckwt && !f.convdeadlk)
  }

  /** The ends of a conversion of `l`, before the effects, and where each leaves the lock. */
  ghost predicate ConvertOutcome(l: Lock, rc: Rc, e: Option<Entry>) {
    e.Some?
    && if rc == InProgress then
         && l.gr != l.rq && !l.flags.noqueue
         && e.value.status == Converting && (e.value.lock == l || DemotionOf(l, e.value.lock))
       else
         && e.value.status == Granted
         && if rc == Ok then GrantOf(l, e.value.lock)
            else Refusal(rc, l.flags) && e.value.lock == if rc == Deadlk then l.(rq := IV) else l
  }

  ghost predicate ConvertEnds(r: Res, l: Lock, o: Outcome) {
    && Sound(o.res) && OthersEvolve(r, o.res, l.id, o.before) && o.after == []
    && ConvertOutcome(l, o.rc, Lookup(o.res, l.id))
  }

  /** A conversion that cannot be put on the queue while its alternative is the mode it already has: either no
      alternative can take the place of what it asks for, or it is not queued in a deadlock with its mode kept. */
  predicate KeepsLock(mode: Mode, f: Flags) {
    PlainConvert(mode, f) || f.noqueue || f.convdeadlk || !f.nodlckwt
  }

  /** Somebody on the convert queue really has to wait for somebody else. */
  ghost predicate Stuck(r: Res) {
    r.convert != [] ==> exists e, h :: e in r.convert && Holds(r, h) && h.id != e.id && !Compat(h.gr, e.rq)
  }

  /** The modes that stand beside `l` and are in no deadlock with it leave nobody on a stuck queue. */
  lemma StuckMeansDeadlock(r: Res, l: Lock)
    requires Sound(r) && Stuck(r) && l in r.grant && r.convert != [] && (l.gr == CW || l.gr == PR)
    ensures Deadlocks(r.convert, l, false)
  {
    var e, h :| e in r.convert && Holds(r, h) && h.id != e.id && !Compat(h.gr, e.rq);
    NotKnown(r, l.id);
    assert Holds(r, l) && Compatible(r);
    assert h.id != l.id ==> Compat(h.gr, l.gr);
    assert !Compat(l.gr, e.rq);
    DeadlockWith(r.convert, l, e);
  }

  lemma {:induction false} DeadlockWith(q: seq<Lock>, l: Lock, e: Lock)
    requires e in q && !Compat(l.gr, e.rq) && forall x :: x in q ==> x.id != l.id
    ensures Deadlocks(q, l, false)
  {
    if e != q[0] {
      DeadlockWith(q[1..], l, e);
    }
  }

  lemma QueuedIsProper(r: Res, l: Lock)
    requires Sound(r) && Stuck(r) && l in r.grant && !l.demoted
    requires ConvertArgs(l.gr, l.rq, l.flags) && KeepsLock(l.rq, l.flags)
    requires var v := Judge(r, l, true); !v.granted && !(v.deadlk && !l.flags.nodlckwt)
    ensures l.gr != l.rq && (l.flags.noqueue || ProperConvert(Judge(r, l, true).lock))
  {
    if l.rq <= NL || l.gr == l.rq {
      EasyConvert(r, l);
    }
    if !l.flags.noqueue && !PlainConvert(l.rq, l.flags) && AltMode(l.rq, l.flags) == l.gr {
      OwnModeIsFree(r, l, l.(rq := l.gr));
      if r.convert != [] {
        StuckMeansDeadlock(r, l);
      }
    }
  }

  /** Nothing stands in the way of the mode a lock already has. */
  lemma OwnModeIsFree(r: Res, l: Lock, m: Lock)
    requires Safe(r) && l in r.grant && m.id == l.id && m.rq == l.gr
    ensures !Conflicts(r.grant, m) && !Conflicts(r.convert, m)
  {
    assert Holds(r, l);
    assert forall x :: Holds(r, x) && x.id != l.id ==> Compat(x.gr, l.gr);
  }

  lemma ConvertNowEvolves(r: Res, l: Lock)
    requires Sound(r) && Stuck(r) && l in r.grant && !l.demoted
    requires ConvertArgs(l.gr, l.rq, l.flags) && KeepsLock(l.rq, l.flags)
    ensures ConvertEnds(r, l, ConvertNow(r, l))
  {
    var v := Judge(r, l, true);
    if v.granted {
      GrantedAsAgreed(r, l, true);
      GrantedEnds(r, l, v.lock);
    } else if v.deadlk && !l.flags.nodlckwt {
      DeadlockEnds(r, l);
    } else {
      NotGrantedEnds(r, l);
    }
  }

  lemma NotGrantedEnds(r: Res, l: Lock)
    requires Sound(r) && Stuck(r) && l in r.grant && !l.demoted
    requires ConvertArgs(l.gr, l.rq, l.flags) && KeepsLock(l.rq, l.flags)
    requires !Judge(r, l, true).granted && !(Judge(r, l, true).deadlk && !l.flags.nodlckwt)
    ensures ConvertEnds(r, l, ConvertNow(r, l))
  {
    QueuedIsProper(r, l);
    LookupOn(r, Granted, l);
    DemotedOrNot(r, l);
    RestEnds(r, l, Judge(r, l, true).lock);
  }

  lemma DemotedOrNot(r: Res, l: Lock)
    requires !Judge(r, l, true).granted && !l.demoted
    ensures Judge(r, l, true).lock == l || DemotionOf(l, Judge(r, l, true).lock)
  {
  }

  lemma GrantedEnds(r: Res, l: Lock, m: Lock)
    requires Sound(r) && l in r.grant && m.id == l.id && m.rq >= NL && !m.flags.expedite && Grantable(r, m, true)
    requires GrantOf(l, AfterGrant(m))
    ensures ConvertEnds(r, l, Outcome(GrantHere(r, m), Ok, [], []))
  {
    var s := GrantHere(r, m);
    GrantHereEvolves(r, l, m);
    Unmoved(s);
    OthersThen(r, s, s, l.id, []);
  }

  lemma DeadlockEnds(r: Res, l: Lock)
    requires Sound(r) && l in r.grant && Refusal(Deadlk, l.flags)
    ensures ConvertEnds(r, l, Outcome(r.(grant := Replace(r.grant, l.(rq := IV))), Deadlk, [], []))
  {
    var s := r.(grant := Replace(r.grant, l.(rq := IV)));
    RewriteEvolves(r, l, l.(rq := IV));
    Unmoved(s);
    OthersThen(r, s, s, l.id, []);
  }

  /** A conversion that was not granted at once, perhaps after a demotion. */
  lemma RestEnds(r: Res, l: Lock, m: Lock)
    requires Sound(r) && l in r.grant && !l.demoted && (m == l || DemotionOf(l, m))
    requires ConvertArgs(l.gr, l.rq, l.flags) && l.gr != l.rq && (l.flags.noqueue || ProperConvert(m))
    ensures ConvertEnds(r, l, ConvertRest(r.(grant := Replace(r.grant, m)), m))
  {
    RewriteEvolves(r, l, m);
    var r1 := r.(grant := Replace(r.grant, m));
    var s := if m.demoted then SettleConvert(r1, false) else Settled(r1, []);
    if m.demoted {
      SettleConvertEvolves(r1, false);
      SettleConvertSafe(r1, false);
    } else {
      Unmoved(r1);
    }
    OthersThen(r, r1, s.res, l.id, s.grants);
    ConvertTailEvolves(r, s.res, l, m, s.grants);
  }

  /** After a possible demotion and the walk it causes, the lock itself is granted, queued or refused. */
  lemma ConvertTailEvolves(r: Res, s: Res, l: Lock, m: Lock, grants: seq<LkId>)
    requires Sound(s) && m in s.grant && (m == l || DemotionOf(l, m)) && ConvertArgs(l.gr, l.rq, l.flags)
    requires l.flags.noqueue || ProperConvert(m)
    requires OthersEvolve(r, s, l.id, grants)
    ensures Grantable(s, m, true) ==>
      var t := GrantHere(s, m);
      Sound(t) && OthersEvolve(r, t, l.id, grants) && Lookup(t, l.id) == Some(Entry(Granted, AfterGrant(m)))
    ensures !l.flags.noqueue ==>
      var t := s.(grant := Drop(s.grant, l.id), convert := Enqueue(s.convert, m));
      Sound(t) && OthersEvolve(r, t, l.id, grants) && Lookup(t, l.id) == Some(Entry(Converting, m))
    ensures Lookup(s, l.id) == Some(Entry(Granted, m))
  {
    LookupOn(s, Granted, m);
    if Grantable(s, m, true) {
      GrantHereEvolves(s, m, m);
    }
    if !l.flags.noqueue {
      ToConvertEvolves(s, m);
    }
  }

  lemma ConvertEvolves(r: Res, id: LkId, mode: Mode, f: Flags)
    requires Sound(r) && Stuck(r) && Lookup(r, id).Some? && Lookup(r, id).value.status == Granted
    requires ConvertArgs(Lookup(r, id).value.lock.gr, mode, f) && KeepsLock(mode, f)
    ensures
      var gr := Lookup(r, id).value.lock.gr;
      var o := DoConvert(r, id, mode, f);
      && Sound(o.res) && OthersEvolve(r, o.res, id, o.before + o.after)
      && ConversionLeft(gr, mode, f, o.rc, Lookup(o.res, id))
  {
    var l0 := Lookup(r, id).value.lock;
    ConversionEnds(r, id, mode, f);
    OutcomeLeft(SetConvert(l0, mode, f), DoConvert(r, id, mode, f).rc, Lookup(DoConvert(r, id, mode, f).res, id));
  }

  lemma OutcomeLeft(l: Lock, rc: Rc, e: Option<Entry>)
    requires ConvertOutcome(l, rc, e) && !l.altmode && !l.demoted
    ensures ConversionLeft(l.gr, l.rq, l.flags, rc, e)
  {
  }

  /** What a conversion from `gr` to `mode` leaves of the lock. */
  ghost predicate ConversionLeft(gr: Mode, mode: Mode, f: Flags, rc: Rc, e: Option<Entry>) {
    match rc
    case Ok =>
      exists g :: e == Some(Entry(Granted, g))
                  && (g.gr == mode || (!PlainConvert(mode, f) && g.gr == AltMode(mode, f)))
    case InProgress =>
      gr != mode && !f.noqueue
      && exists c :: e == Some(Entry(Converting, c)) && c.rq == mode && c.flags == f && !c.altmode
                     && ((c.gr == gr && !c.demoted) || (f.convdeadlk && c.gr == NL && c.demoted))
    case _ =>
      Refusal(rc, f)
      && exists g :: e == Some(Entry(Granted, g)) && g.gr == gr && g.flags == f
                     && g.rq == if rc == Deadlk then IV else mode
  }

  lemma ConversionEnds(r: Res, id: LkId, mode: Mode, f: Flags)
    requires Sound(r) && Stuck(r) && Has(r.grant, id)
    requires ConvertArgs(r.grant[Index(r.grant, id)].gr, mode, f) && KeepsLock(mode, f)
    ensures var o := DoConvert(r, id, mode, f);
      && Sound(o.res) && OthersEvolve(r, o.res, id, o.before + o.after)
      && ConvertOutcome(SetConvert(r.grant[Index(r.grant, id)], mode, f), o.rc, Lookup(o.res, id))
  {
    var l0 := r.grant[Index(r.grant, id)];
    var l := SetConvert(l0, mode, f);
    RewriteEvolves(r, l0, l);
    var r1 := r.(grant := Replace(r.grant, l));
    RewriteStuck(r, l0, l);
    ConvertNowEvolves(r1, l);
    EffectsEvolve(r, r1, l, ConvertNow(r1, l));
  }

  lemma RewriteStuck(r: Res, l: Lock, m: Lock)
    requires WellShaped(r) && Stuck(r) && l in r.grant && m.id == l.id && m.gr == l.gr
    ensures Stuck(r.(grant := Replace(r.grant, m)))
  {
    var s := r.(grant := Replace(r.grant, m));
    ReplaceMembers(r.grant, m);
    SameLock(r.grant, l.id);
    if r.convert != [] {
      var e, h :| e in r.convert && Holds(r, h) && h.id != e.id && !Compat(h.gr, e.rq);
      assert Holds(s, if h.id == m.id then m else h);
    }
  }

  /** A conversion with the effects that follow it. */
  function WithEffects(n: Outcome): Outcome
    requires n.rc == Ok ==> Live(n.res.convert)
  {
    if n.rc == Ok then n.(res := SettleAll(n.res).res, after := SettleAll(n.res).grants) else n
  }

  lemma EffectsEvolve(r: Res, r1: Res, l: Lock, n: Outcome)
    requires ConvertEnds(r1, l, n) && forall x :: x != l.id ==> Lookup(r1, x) == Lookup(r, x)
    ensures var o := WithEffects(n);
      Sound(o.res) && OthersEvolve(r, o.res, l.id, o.before + o.after) && ConvertOutcome(l, o.rc, Lookup(o.res, l.id))
  {
    EndsEvolve(r, r1, l, n);
    if n.rc == Ok {
      SettleAllEvolves(n.res);
      SettleAfter(r, n.res, l.id, n.before);
    } else {
      assert n.before + n.after == n.before;
    }
  }

  lemma EndsEvolve(r: Res, r1: Res, l: Lock, n: Outcome)
    requires OthersEvolve(r1, n.res, l.id, n.before) && forall x :: x != l.id ==> Lookup(r1, x) == Lookup(r, x)
    ensures OthersEvolve(r, n.res, l.id, n.before)
  {
    forall x | x != l.id ensures Change(Lookup(r, x), Lookup(n.res, x), x in n.before) {
      assert Change(Lookup(r1, x), Lookup(n.res, x), x in n.before);
    }
  }

  lemma SettleAfter(r: Res, s: Res, id: LkId, grants: seq<LkId>)
    requires Sound(s) && OthersEvolve(r, s, id, grants)
    requires Lookup(s, id).Some? && Lookup(s, id).value.status == Granted
    ensures var t := SettleAll(s);
      OthersEvolve(r, t.res, id, grants + t.grants) && Lookup(t.res, id) == Lookup(s, id)
  {
    SettleAllEvolves(s);
    OthersTrans(r, s, SettleAll(s).res, id, grants, SettleAll(s).grants);
  }

  lemma OthersTrans(r: Res, s: Res, t: Res, id: LkId, g: seq<LkId>, h: seq<LkId>)
    requires OthersEvolve(r, s, id, g) && Evolves(s, t, h)
    requires Lookup(s, id) == None || Lookup(s, id).value.status == Granted
    ensures OthersEvolve(r, t, id, g + h) && Lookup(t, id) == Lookup(s, id)
  {
    assert Change(Lookup(s, id), Lookup(t, id), id in h);
    forall x | x != id ensures Change(Lookup(r, x), Lookup(t, x), x in g + h) {
      assert Change(Lookup(r, x), Lookup(s, x), x in g);
      assert Change(Lookup(s, x), Lookup(t, x), x in h);
    }
    forall i, j | 0 <= i < |g| && 0 <= j < |h| ensures g[i] != h[j] {
      assert g[i] in g && h[j] in h && g[i] != id;
      assert Change(Lookup(r, g[i]), Lookup(s, g[i]), true);
      assert Change(Lookup(s, h[j]), Lookup(t, h[j]), true);
    }
  }

  // ----- unlock

  lemma DropOn(r: Res, id: LkId)
    requires WellShaped(r)
    ensures forall st, x: Lock :: On(Res(Drop(r.grant, id), Drop(r.convert, id), Drop(r.wait, id)), st, x)
                                  <==> On(r, st, x) && x.id != id
  {
    DropMembers(r.grant, id);
    DropMembers(r.convert, id);
    DropMembers(r.wait, id);
  }

  lemma DropEvolves(r: Res, id: LkId)
    requires Sound(r)
    ensures var s := Res(Drop(r.grant, id), Drop(r.convert, id), Drop(r.wait, id));
      Sound(s) && Lookup(s, id) == None && forall x :: x != id ==> Lookup(s, x) == Lookup(r, x)
  {
    var s := Res(Drop(r.grant, id), Drop(r.convert, id), Drop(r.wait, id));
    DropSafe(r, id);
    DropOn(r, id);
    assert forall l :: l in s.grant ==> On(r, Granted, l);
    assert forall l :: l in s.convert ==> On(r, Converting, l);
    OnlyTouches(r, s, id);
    GoneFrom(s, id);
  }

  lemma GoneFrom(s: Res, id: LkId)
    requires forall st, x: Lock :: On(s, st, x) ==> x.id != id
    ensures Lookup(s, id) == None
  {
    if Lookup(s, id).Some? {
      assert On(s, Lookup(s, id).value.status, Lookup(s, id).value.lock);
    }
  }

  lemma UnlockEvolves(r: Res, id: LkId)
    requires Sound(r) && Lookup(r, id).Some?
    ensures
      var o := DoUnlock(r, id);
      && Sound(o.res) && o.rc == Unlocked && o.before == []
      && OthersEvolve(r, o.res, id, o.after) && Lookup(o.res, id) == None
  {
    var s := Res(Drop(r.grant, id), Drop(r.convert, id), Drop(r.wait, id));
    DropEvolves(r, id);
    SettleFirst(r, s, id);
  }

  /** A queued conversion is taken back to the granted queue. */
  ghost predicate TakenBack(r: Res, s: Res, l0: Lock, l: Lock) {
    && s.wait == r.wait && UniqueIds(s.grant) && UniqueIds(s.convert)
    && (forall x :: x in s.grant <==> x == l || x in r.grant)
    && (forall x :: x in s.convert <==> x in r.convert && x.id != l.id)
    && (forall x :: x in r.grant || x in r.wait ==> x.id != l.id)
    && l0 in r.convert && l == l0.(rq := IV)
  }

  lemma RevertTakesBack(r: Res, id: LkId)
    requires WellShaped(r) && Has(r.convert, id)
    ensures
      var l0 := r.convert[Index(r.convert, id)];
      var l := l0.(rq := IV);
      TakenBack(r, r.(grant := InsertOrdered(r.grant, l, l.gr), convert := Drop(r.convert, id)), l0, l)
  {
    var l := r.convert[Index(r.convert, id)].(rq := IV);
    NotKnown(r, id);
    DropMembers(r.convert, id);
    InsertOrderedMembers(r.grant, l, l.gr);
  }

  lemma TakenBackSound(r: Res, s: Res, l0: Lock, l: Lock)
    requires Sound(r) && TakenBack(r, s, l0, l)
    ensures Sound(s)
  {
    assert WellShaped(s);
    assert Holds(r, l0);
    StillCompatible(r, s, l0, l);
  }

  lemma RevertSound(r: Res, id: LkId)
    requires Sound(r) && Has(r.convert, id)
    ensures
      var l := r.convert[Index(r.convert, id)].(rq := IV);
      Sound(r.(grant := InsertOrdered(r.grant, l, l.gr), convert := Drop(r.convert, id)))
  {
    var l0 := r.convert[Index(r.convert, id)];
    var l := l0.(rq := IV);
    RevertTakesBack(r, id);
    TakenBackSound(r, r.(grant := InsertOrdered(r.grant, l, l.gr), convert := Drop(r.convert, id)), l0, l);
  }

  lemma StillCompatible(r: Res, s: Res, l0: Lock, l: Lock)
    requires Compatible(r) && Holds(r, l0) && l.id == l0.id && l.gr == l0.gr
    requires forall x :: Holds(s, x) ==> x == l || (Holds(r, x) && x.id != l.id)
    ensures Compatible(s)
  {
  }

  lemma CancelSound(r: Res, id: LkId)
    requires Sound(r)
    ensures Sound(DoCancel(r, id).res)
  {
    if Has(r.grant, id) {
      var l := r.grant[Index(r.grant, id)];
      RewriteEvolves(r, l, l.(rq := IV));
    } else if Has(r.convert, id) {
      RevertSound(r, id);
      var l := r.convert[Index(r.convert, id)].(rq := IV);
      SettleAllEvolves(r.(grant := InsertOrdered(r.grant, l, l.gr), convert := Drop(r.convert, id)));
    } else if Has(r.wait, id) {
      DropSafe(r, id);
      SettleAllEvolves(r.(wait := Drop(r.wait, id)));
    }
  }

  /** A cancel: the three places it can find the lock in, and where it leaves it. */
  lemma CancelEvolves(r: Res, id: LkId)
    requires Sound(r) && Lookup(r, id).Some?
    ensures
      var e := Lookup(r, id).value;
      var o := DoCancel(r, id);
      && Sound(o.res) && o.before == [] && OthersEvolve(r, o.res, id, o.after)
      && o.rc == (if e.status == Granted then Nothing else Cancelled)
      && Lookup(o.res, id) == if e.status == Waiting then None else Some(Entry(Granted, e.lock.(rq := IV)))
  {
    var l := Lookup(r, id).value.lock;
    match Lookup(r, id).value.status
    case Granted => NothingToCancel(r, l);
    case Converting =>
      var s := r.(grant := InsertOrdered(r.grant, l.(rq := IV), l.gr), convert := Drop(r.convert, id));
      RevertEvolves(r, id);
      SettleFirst(r, s, id);
    case Waiting =>
      var s := Res(Drop(r.grant, id), Drop(r.convert, id), Drop(r.wait, id));
      DropEvolves(r, id);
      SettleFirst(r, s, id);
  }

  lemma NothingToCancel(r: Res, l: Lock)
    requires Sound(r) && l in r.grant
    ensures var s := r.(grant := Replace(r.grant, l.(rq := IV)));
      && Sound(s) && OthersEvolve(r, s, l.id, []) && Lookup(s, l.id) == Some(Entry(Granted, l.(rq := IV)))
  {
    var s := r.(grant := Replace(r.grant, l.(rq := IV)));
    RewriteEvolves(r, l, l.(rq := IV));
    Unmoved(s);
    OthersThen(r, s, s, l.id, []);
  }

  lemma RevertEvolves(r: Res, id: LkId)
    requires Sound(r) && Has(r.convert, id)
    ensures
      var l := r.convert[Index(r.convert, id)].(rq := IV);
      var s := r.(grant := InsertOrdered(r.grant, l, l.gr), convert := Drop(r.convert, id));
      && Sound(s) && Lookup(s, id) == Some(Entry(Granted, l))
      && forall x :: x != id ==> Lookup(s, x) == Lookup(r, x)
  {
    var l := r.convert[Index(r.convert, id)].(rq := IV);
    var s := r.(grant := InsertOrdered(r.grant, l, l.gr), convert := Drop(r.convert, id));
    RevertSound(r, id);
    RevertTakesBack(r, id);
    LookupOn(s, Granted, l);
    OnlyTouches(r, s, id);
  }

  /** Down-conversions never wait: whatever else is on the resource, they are granted by the operation
      itself, which is why neither side sends or expects a reply for them. */
  lemma DownConversionIsImmediate(r: Res, id: LkId, mode: Mode, f: Flags)
    requires Sound(r) && Lookup(r, id).Some? && Lookup(r, id).value.status == Granted
    requires DownConversion(Lookup(r, id).value.lock.gr, mode)
    requires ConvertArgs(Lookup(r, id).value.lock.gr, mode, f)
    ensures DoConvert(r, id, mode, f).rc == Ok
  {
    var l0 := Lookup(r, id).value.lock;
    var l := SetConvert(l0, mode, f);
    LookupOn(r, Granted, l0);
    RewriteEvolves(r, l0, l);
    var r1 := r.(grant := Replace(r.grant, l));
    StrengthIsNumeric(mode, l0.gr);
    assert Holds(r1, l);
    assert forall x :: Holds(r1, x) && x.id != id ==> Compat(l0.gr, x.gr);
    assert Grantable(r1, l, true);
  }
}

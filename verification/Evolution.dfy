/** What the operations do to *other* locks: each either stays where it is, or moves from a queue to the
    granted queue in the mode it asked for and is reported exactly once.  The wire protocol is built on
    this. */
module Evolution {
  import opened Modes
  import opened Resource
  import opened Shape
  import opened Safety

  datatype Option<T> = None | Some(value: T)

  datatype Entry = Entry(status: Status, lock: Lock)

  function Lookup(r: Res, id: LkId): Option<Entry> {
    if Has(r.grant, id) then Some(Entry(Granted, r.grant[Index(r.grant, id)]))
    else if Has(r.convert, id) then Some(Entry(Converting, r.convert[Index(r.convert, id)]))
    else if Has(r.wait, id) then Some(Entry(Waiting, r.wait[Index(r.wait, id)]))
    else None
  }

  ghost predicate On(r: Res, st: Status, l: Lock) {
    match st
    case Granted => l in r.grant
    case Converting => l in r.convert
    case Waiting => l in r.wait
  }

  lemma LookupOn(r: Res, st: Status, l: Lock)
    requires WellShaped(r)
    ensures On(r, st, l) <==> Lookup(r, l.id) == Some(Entry(st, l))
  {
    NotKnown(r, l.id);
    var e := Lookup(r, l.id);
    if e.Some? {
      assert On(r, e.value.status, e.value.lock);
      assert forall x :: x in r.grant && x.id == l.id ==>
        x == r.grant[Index(r.grant, l.id)] by { SameLock(r.grant, l.id); }
      assert forall x :: x in r.convert && x.id == l.id ==>
        x == r.convert[Index(r.convert, l.id)] by { SameLock(r.convert, l.id); }
      assert forall x :: x in r.wait && x.id == l.id ==> x == r.wait[Index(r.wait, l.id)] by { SameLock(r.wait, l.id); }
    }
  }

  lemma SameLock(q: seq<Lock>, id: LkId)
    requires UniqueIds(q)
    ensures forall x :: x in q && x.id == id ==> Has(q, id) && x == q[Index(q, id)]
  {
    DropMembers(q, id);
    forall x | x in q && x.id == id ensures Has(q, id) && x == q[Index(q, id)] {
      var k :| 0 <= k < |q| && q[k] == x;
    }
  }

  /** No alternative mode can take the place of `mode`: the flags name none, or `mode` is so weak that nothing
      stands in its way that would not stand in the way of the alternative. */
  predicate PlainConvert(mode: Mode, f: Flags) {
    AltMode(mode, f) == NL || mode <= CR
  }

  /** ... so the test grants what was asked for or nothing. */
  lemma PlainIsGrantedAsAsked(r: Res, l: Lock, now: bool)
    requires PlainConvert(l.rq, l.flags)
    ensures Judge(r, l, now).granted ==> Judge(r, l, now).lock == l
  {
    if l.rq <= CR {
      WeakConflicts(r.grant, l, AltMode(l.rq, l.flags));
      WeakConflicts(r.convert, l, AltMode(l.rq, l.flags));
    }
  }

  lemma WeakConflicts(q: seq<Lock>, l: Lock, alt: Mode)
    requires l.rq <= CR
    ensures alt >= CW && Conflicts(q, l) ==> Conflicts(q, l.(rq := alt))
  {
  }

  /** A queued conversion really asks for something else, and its alternative, too, would be something else. */
  predicate ProperConvert(l: Lock) {
    && l.gr >= NL && l.rq > NL && l.gr != l.rq
    && !l.flags.noqueue && (PlainConvert(l.rq, l.flags) || AltMode(l.rq, l.flags) != l.gr)
    && (l.demoted ==> l.gr == NL)
  }

  /** ... and a granted lock really has a mode. */
  ghost predicate Proper(r: Res) {
    && (forall l :: l in r.convert ==> ProperConvert(l))
    && (forall l :: l in r.grant ==> l.gr >= NL)
  }

  /** `g` is `l` granted: in the mode it asked for, or in the alternative mode its flags name. */
  predicate GrantOf(l: Lock, g: Lock) {
    && g.id == l.id && g.flags == l.flags && g.rq == IV
    && ((g.gr == l.rq && g.altmode == l.altmode)
        || (!PlainConvert(l.rq, l.flags) && g.gr == AltMode(l.rq, l.flags) && g.altmode))
  }

  lemma GrantedAsAgreed(r: Res, l: Lock, now: bool)
    requires Judge(r, l, now).granted
    ensures var m := Judge(r, l, now).lock; m.gr == l.gr && m.id == l.id && GrantOf(l, AfterGrant(m))
  {
    if PlainConvert(l.rq, l.flags) {
      PlainIsGrantedAsAsked(r, l, now);
    }
  }

  lemma GrantedElsewhere(r: Res, l: Lock)
    requires ProperConvert(l) && Judge(r, l, false).granted
    ensures Judge(r, l, false).lock.gr != Judge(r, l, false).lock.rq
  {
    if PlainConvert(l.rq, l.flags) {
      PlainIsGrantedAsAsked(r, l, false);
    }
  }

  predicate DemotionOf(l: Lock, m: Lock) {
    l.flags.convdeadlk && m == l.(gr := NL, demoted := true)
  }

  predicate Change(a: Option<Entry>, b: Option<Entry>, granted: bool) {
    if granted then
      && a.Some? && a.value.status != Granted
      && b.Some? && b.value.status == Granted && GrantOf(a.value.lock, b.value.lock)
    else
      || b == a
      || (a.Some? && b.Some? && a.value.status == Converting && b.value.status == Converting
          && DemotionOf(a.value.lock, b.value.lock))
  }

  ghost predicate Distinct(ids: seq<LkId>) {
    forall i, j :: 0 <= i < j < |ids| ==> ids[i] != ids[j]
  }

  ghost predicate Evolves(r: Res, s: Res, grants: seq<LkId>) {
    && Distinct(grants)
    && (forall id :: Change(Lookup(r, id), Lookup(s, id), id in grants))
  }

  lemma Unmoved(r: Res)
    ensures Evolves(r, r, [])
  {
  }

  lemma EvolvesTrans(r: Res, s: Res, t: Res, g: seq<LkId>, h: seq<LkId>)
    requires Evolves(r, s, g) && Evolves(s, t, h)
    ensures Evolves(r, t, g + h)
  {
    forall id ensures Change(Lookup(r, id), Lookup(t, id), id in g + h) {
      assert Change(Lookup(r, id), Lookup(s, id), id in g);
      assert Change(Lookup(s, id), Lookup(t, id), id in h);
    }
    forall i, j | 0 <= i < j < |g + h| ensures (g + h)[i] != (g + h)[j] {
      if i < |g| <= j {
        assert Change(Lookup(r, g[i]), Lookup(s, g[i]), true);
        assert Change(Lookup(s, h[j - |g|]), Lookup(t, h[j - |g|]), true);
      }
    }
  }

  /** One entry of the convert queue evolves by itself. */
  lemma ConvertStepEvolves(r: Res, i: nat)
    requires Safe(r) && Proper(r) && i < |r.convert|
    ensures
      var v := Judge(r, r.convert[i], false);
      var s := ConvertStep(r, i).0;
      Safe(s) && Proper(s) && Evolves(r, s, if v.granted then [r.convert[i].id] else [])
  {
    if Judge(r, r.convert[i], false).granted {
      GrantConvertEvolves(r, i);
    } else {
      DemoteEvolves(r, i);
    }
  }

  /** Moving one queued lock to the granted queue, in a mode it agreed to, and touching no other. */
  lemma MovedEvolves(r: Res, s: Res, st: Status, l: Lock, g: Lock)
    requires WellShaped(r) && WellShaped(s)
    requires st != Granted && On(r, st, l) && On(s, Granted, g) && GrantOf(l, g)
    requires forall t, x: Lock :: x.id != l.id ==> (On(r, t, x) <==> On(s, t, x))
    ensures Evolves(r, s, [l.id])
  {
    LookupOn(r, st, l);
    LookupOn(s, Granted, g);
    forall id | id != l.id ensures Lookup(r, id) == Lookup(s, id) {
      SameElsewhere(r, s, id);
    }
  }

  lemma GrantConvertEvolves(r: Res, i: nat)
    requires Safe(r) && Proper(r) && i < |r.convert| && Judge(r, r.convert[i], false).granted
    ensures
      var s := ConvertStep(r, i).0;
      Safe(s) && Proper(s) && Evolves(r, s, [r.convert[i].id])
  {
    var l := r.convert[i];
    var m := Judge(r, l, false).lock;
    var g := AfterGrant(m);
    var s := ConvertStep(r, i).0;
    assert l in r.convert;
    GrantedAsAgreed(r, l, false);
    GrantConvertSafe(r, i, m);
    InsertOrderedMembers(r.grant, g, m.rq);
    DropAtMembers(r.convert, i);
    forall t, x: Lock | x.id != l.id ensures On(r, t, x) <==> On(s, t, x) {
    }
    MovedEvolves(r, s, Converting, l, g);
  }

  lemma DemoteEvolves(r: Res, i: nat)
    requires Safe(r) && Proper(r) && i < |r.convert| && !Judge(r, r.convert[i], false).granted
    ensures
      var s := ConvertStep(r, i).0;
      Safe(s) && Proper(s) && Evolves(r, s, [])
  {
    var l := r.convert[i];
    var m := Judge(r, l, false).lock;
    var s := ConvertStep(r, i).0;
    assert l in r.convert;
    LookupOn(r, Converting, l);
    DemoteSafe(r, i, m);
    UpdateMembers(r.convert, i, m);
    LookupOn(s, Converting, m);
    forall id | id != l.id ensures Lookup(r, id) == Lookup(s, id) {
      SameElsewhere(r, s, id);
    }
  }

  /** If two resources agree on the locks named `id` queue by queue, looking `id` up gives the same. */
  lemma SameElsewhere(r: Res, s: Res, id: LkId)
    requires WellShaped(r) && WellShaped(s)
    requires forall st, x: Lock :: x.id == id ==> (On(r, st, x) <==> On(s, st, x))
    ensures Lookup(r, id) == Lookup(s, id)
  {
    var a, b := Lookup(r, id), Lookup(s, id);
    if a.Some? {
      LookupOn(r, a.value.status, a.value.lock);
      LookupOn(s, a.value.status, a.value.lock);
    } else if b.Some? {
      LookupOn(r, b.value.status, b.value.lock);
      LookupOn(s, b.value.status, b.value.lock);
    }
  }

  lemma WaitStepEvolves(r: Res, i: nat)
    requires Safe(r) && Proper(r) && i < |r.wait|
    requires Judge(r, r.wait[i], false).granted
    ensures
      var v := Judge(r, r.wait[i], false);
      var s := GrantWait(r, i, v.lock);
      v.lock.gr != v.lock.rq && Safe(s) && Proper(s) && Evolves(r, s, [r.wait[i].id])
  {
    var l := r.wait[i];
    var m := Judge(r, l, false).lock;
    var g := AfterGrant(m);
    assert l in r.wait;
    var s := GrantWait(r, i, m);
    GrantWaitSafe(r, i, m);
    InsertOrderedMembers(r.grant, g, m.rq);
    DropAtMembers(r.wait, i);
    forall t, x: Lock | x.id != l.id ensures On(r, t, x) <==> On(s, t, x) {
    }
    MovedEvolves(r, s, Waiting, l, g);
  }

  lemma {:induction false} ConvertPassEvolves(r: Res, i: nat)
    requires Safe(r) && Proper(r) && i <= |r.convert|
    ensures var p := ConvertPass(r, i); Safe(p.res) && Proper(p.res) && Evolves(r, p.res, p.grants)
    decreases |r.convert| - i
  {
    if i == |r.convert| {
      Unmoved(r);
    } else {
      var v := Judge(r, r.convert[i], false);
      ConvertStepEvolves(r, i);
      var (next, k) := ConvertStep(r, i);
      ConvertPassEvolves(next, k);
      var p := ConvertPass(next, k);
      EvolvesTrans(r, next, p.res, if v.granted then [r.convert[i].id] else [], p.grants);
      assert [] + p.grants == p.grants;
    }
  }

  lemma {:induction false} SettleConvertEvolves(r: Res, quit: bool)
    requires Safe(r) && Proper(r)
    ensures var s := SettleConvert(r, quit); Safe(s.res) && Proper(s.res) && Evolves(r, s.res, s.grants)
    decreases Weight(r.convert), !quit
  {
    ConvertPassEvolves(r, 0);
    var p := ConvertPass(r, 0);
    if p.granted {
      SettleConvertEvolves(p.res, quit);
      var s := SettleConvert(p.res, quit);
      EvolvesTrans(r, p.res, s.res, p.grants, s.grants);
    } else if p.demoted && !quit {
      SettleConvertEvolves(p.res, true);
      var s := SettleConvert(p.res, true);
      EvolvesTrans(r, p.res, s.res, p.grants, s.grants);
    }
  }

  lemma {:induction false} WaitPassEvolves(r: Res, i: nat)
    requires Safe(r) && Proper(r)
    ensures var s := WaitPass(r, i); Safe(s.res) && Proper(s.res) && Evolves(r, s.res, s.grants)
    decreases |r.wait| - i
  {
    if i >= |r.wait| {
      Unmoved(r);
    } else {
      var l := r.wait[i];
      var v := Judge(r, l, false);
      assert l in r.wait;
      if v.granted {
        WaitStepEvolves(r, i);
        var next := GrantWait(r, i, v.lock);
        WaitPassEvolves(next, i);
        var s := WaitPass(next, i);
        EvolvesTrans(r, next, s.res, [l.id], s.grants);
      } else {
        assert r.wait[i := v.lock] == r.wait;
        assert r.(wait := r.wait[i := v.lock]) == r;
        WaitPassEvolves(r, i + 1);
      }
    }
  }

  /** Re-examining the queues grants some queued locks, each in a mode its owner agreed to and each reported
      once; nothing else moves. */
  lemma SettleAllEvolves(r: Res)
    requires Safe(r) && Proper(r)
    ensures var s := SettleAll(r); Safe(s.res) && Proper(s.res) && Evolves(r, s.res, s.grants)
  {
    SettleConvertEvolves(r, false);
    var c := SettleConvert(r, false);
    WaitPassEvolves(c.res, 0);
    var w := WaitPass(c.res, 0);
    EvolvesTrans(r, c.res, w.res, c.grants, w.grants);
  }
}

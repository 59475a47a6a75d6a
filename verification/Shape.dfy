/** The structural invariant of a resource (every lock on exactly one queue) and the safety invariant
    (granted modes pairwise compatible), kept by every elementary queue operation. */
module Shape {
  import opened Modes
  import opened Resource

  ghost predicate UniqueIds(q: seq<Lock>) {
    forall i, j :: 0 <= i < j < |q| ==> q[i].id != q[j].id
  }

  ghost predicate Apart(p: seq<Lock>, q: seq<Lock>) {
    forall a, b :: a in p && b in q ==> a.id != b.id
  }

  /** Every lock is on one queue, once; a waiter has no mode yet; a shortcut request is never queued. */
  ghost predicate WellShaped(r: Res) {
    && UniqueIds(r.grant) && UniqueIds(r.convert) && UniqueIds(r.wait)
    && Apart(r.grant, r.convert) && Apart(r.grant, r.wait) && Apart(r.convert, r.wait)
    && Live(r.convert)
    && (forall l :: l in r.convert ==> !l.flags.expedite)
    && (forall l :: l in r.wait ==> !l.flags.expedite && l.gr == IV && l.rq != IV)
  }

  ghost predicate Holds(r: Res, l: Lock) {
    l in r.grant || l in r.convert
  }

  /** The reason a lock manager exists, seen from the master. */
  ghost predicate Compatible(r: Res) {
    forall a, b :: Holds(r, a) && Holds(r, b) && a.id != b.id ==> Compat(a.gr, b.gr)
  }

  ghost predicate Safe(r: Res) {
    WellShaped(r) && Compatible(r)
  }

  // ----- membership in the queue operations

  lemma DropAtMembers(q: seq<Lock>, i: nat)
    requires i < |q| && UniqueIds(q)
    ensures UniqueIds(DropAt(q, i))
    ensures forall x :: x in DropAt(q, i) <==> x in q && x.id != q[i].id
  {
    var d := DropAt(q, i);
    forall x ensures x in d <==> x in q && x.id != q[i].id {
      if x in q && x.id != q[i].id {
        var k :| 0 <= k < |q| && q[k] == x;
        assert d[if k < i then k else k - 1] == x;
      }
    }
  }

  lemma DropMembers(q: seq<Lock>, id: LkId)
    requires UniqueIds(q)
    ensures UniqueIds(Drop(q, id))
    ensures forall x :: x in Drop(q, id) <==> x in q && x.id != id
    ensures Has(q, id) <==> exists x :: x in q && x.id == id
  {
    if Has(q, id) {
      DropAtMembers(q, Index(q, id));
      assert q[Index(q, id)] in q;
    }
  }

  lemma UpdateMembers(q: seq<Lock>, i: nat, l: Lock)
    requires i < |q| && UniqueIds(q) && l.id == q[i].id
    ensures UniqueIds(q[i := l])
    ensures forall x :: x in q[i := l] <==> x == l || (x in q && x.id != l.id)
  {
    var d := q[i := l];
    assert d[i] == l;
    forall x ensures x in d <==> x == l || (x in q && x.id != l.id) {
      if x in q && x.id != l.id {
        var k :| 0 <= k < |q| && q[k] == x;
        assert d[k] == x;
      }
      if x in d && x != l {
        var k :| 0 <= k < |d| && d[k] == x;
        assert q[k] == x;
      }
    }
  }

  lemma ReplaceMembers(q: seq<Lock>, l: Lock)
    requires UniqueIds(q)
    ensures UniqueIds(Replace(q, l))
    ensures forall x :: x in Replace(q, l) <==> (x == l && Has(q, l.id)) || (x in q && x.id != l.id)
  {
    if Has(q, l.id) {
      UpdateMembers(q, Index(q, l.id), l);
    } else {
      DropMembers(q, l.id);
    }
  }

  lemma {:induction false} InsertOrderedMembers(q: seq<Lock>, l: Lock, mode: Mode)
    ensures forall x :: x in InsertOrdered(q, l, mode) <==> x == l || x in q
    ensures UniqueIds(q) && (forall x :: x in q ==> x.id != l.id) ==> UniqueIds(InsertOrdered(q, l, mode))
  {
    if q != [] && q[0].rq >= mode {
      InsertOrderedMembers(q[1..], l, mode);
      var d := InsertOrdered(q[1..], l, mode);
      assert q == [q[0]] + q[1..];
      assert InsertOrdered(q, l, mode) == [q[0]] + d;
      if UniqueIds(q) && (forall x :: x in q ==> x.id != l.id) {
        assert forall x :: x in d ==> x.id != q[0].id by {
          forall x | x in d ensures x.id != q[0].id {
            if x in q[1..] {
              var k :| 0 <= k < |q| - 1 && q[1..][k] == x;
              assert q[k + 1] == x;
            }
          }
        }
        assert UniqueIds(q[1..]);
      }
    }
  }

  // ----- each elementary step is safe

  lemma GrantConvertSafe(r: Res, i: nat, l: Lock)
    requires Safe(r) && i < |r.convert|
    requires l == Judge(r, r.convert[i], false).lock && Judge(r, r.convert[i], false).granted
    ensures Safe(GrantConvert(r, i, l))
  {
    GrantConvertMembers(r, i, l);
    assert forall x :: Holds(r, x) && x.id != l.id ==> Compat(x.gr, l.rq);
  }

  lemma GrantConvertMembers(r: Res, i: nat, l: Lock)
    requires WellShaped(r) && i < |r.convert| && l.id == r.convert[i].id && !l.flags.expedite
    requires l.gr != IV || l.rq != IV
    ensures var s := GrantConvert(r, i, l);
      WellShaped(s) && forall x :: Holds(s, x) ==> x == AfterGrant(l) || (Holds(r, x) && x.id != l.id)
  {
    InsertOrderedMembers(r.grant, AfterGrant(l), l.rq);
    DropAtMembers(r.convert, i);
    UpdateMembers(r.convert, i, AfterGrant(l));
  }

  lemma DemoteSafe(r: Res, i: nat, l: Lock)
    requires Safe(r) && i < |r.convert|
    requires l == Judge(r, r.convert[i], false).lock && !Judge(r, r.convert[i], false).granted
    ensures Safe(r.(convert := r.convert[i := l]))
  {
    UpdateMembers(r.convert, i, l);
    var s := r.(convert := r.convert[i := l]);
    assert forall x :: Holds(s, x) ==> x == l || (Holds(r, x) && x.id != l.id);
    assert Holds(r, r.convert[i]);
    assert l.gr == r.convert[i].gr || l.gr == NL;
  }

  lemma GrantWaitSafe(r: Res, i: nat, l: Lock)
    requires Safe(r) && i < |r.wait|
    requires l == Judge(r, r.wait[i], false).lock && Judge(r, r.wait[i], false).granted
    ensures Safe(GrantWait(r, i, l))
  {
    var s := GrantWait(r, i, l);
    var g := AfterGrant(l);
    assert r.wait[i] in r.wait;
    InsertOrderedMembers(r.grant, g, l.rq);
    DropAtMembers(r.wait, i);
    assert forall x :: Holds(s, x) ==> x == g || (Holds(r, x) && x.id != l.id);
    assert forall x :: Holds(r, x) && x.id != l.id ==> Compat(x.gr, l.rq);
  }
}

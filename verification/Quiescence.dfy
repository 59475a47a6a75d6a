/** Re-examining the queues once leaves nothing grantable behind, whatever the flags of the queued locks. */
module Quiescence {
  import opened Modes
  import opened Resource
  import opened Shape
  import opened Safety

  /** Nothing that is queued could be granted now. */
  ghost predicate QuietConvert(r: Res) {
    forall l :: l in r.convert ==> !Judge(r, l, false).granted
  }

  ghost predicate Quiet(r: Res) {
    QuietConvert(r) && forall l :: l in r.wait ==> !Judge(r, l, false).granted
  }

  // ----- what holds of every queued conversion

  /** It may be queued, and asks for something it has not.  A lock whose alternative was granted while it stood on
      the queue asks for no mode any more; one that has lost its mode may ask for any. */
  predicate Queueable(l: Lock) {
    !l.flags.noqueue && l.gr != l.rq && (l.gr != IV ==> l.rq != NL) && (l.demoted ==> l.gr == NL)
  }

  ghost predicate Tidy(r: Res) {
    Safe(r) && forall l :: l in r.convert ==> Queueable(l)
  }

  lemma ConvertStepTidy(r: Res, i: nat)
    requires Tidy(r) && i < |r.convert|
    ensures Tidy(ConvertStep(r, i).0)
  {
    var l := r.convert[i];
    var m := Judge(r, l, false).lock;
    assert l in r.convert;
    if Judge(r, l, false).granted {
      GrantConvertSafe(r, i, m);
      UpdateMembers(r.convert, i, AfterGrant(m));
      DropAtMembers(r.convert, i);
    } else {
      DemoteSafe(r, i, m);
      UpdateMembers(r.convert, i, m);
    }
  }

  lemma {:induction false} ConvertPassTidy(r: Res, i: nat)
    requires Tidy(r) && i <= |r.convert|
    ensures Tidy(ConvertPass(r, i).res)
    decreases |r.convert| - i
  {
    if i < |r.convert| {
      ConvertStepTidy(r, i);
      var (next, k) := ConvertStep(r, i);
      ConvertPassTidy(next, k);
    }
  }

  lemma {:induction false} SettleConvertTidy(r: Res, quit: bool)
    requires Tidy(r)
    ensures Tidy(SettleConvert(r, quit).res)
    decreases Weight(r.convert), !quit
  {
    ConvertPassTidy(r, 0);
    var p := ConvertPass(r, 0);
    if p.granted {
      SettleConvertTidy(p.res, quit);
    } else if p.demoted && !quit {
      SettleConvertTidy(p.res, true);
    }
  }

  lemma SettleAllTidy(r: Res)
    requires Tidy(r)
    ensures Tidy(SettleAll(r).res)
  {
    SettleConvertTidy(r, false);
    WaitPassSafe(SettleConvert(r, false).res, 0);
  }

  // ----- conversions that would be demoted

  ghost predicate Calm(q: seq<Lock>, l: Lock) {
    l.flags.convdeadlk ==> !Deadlocks(q, l, false)
  }

  /** The first `n` entries are calm. */
  ghost predicate CalmUpTo(q: seq<Lock>, n: nat)
    requires n <= |q|
  {
    forall k :: 0 <= k < n ==> Calm(q, q[k])
  }

  lemma {:induction false} DeadlocksAfterDrop(q: seq<Lock>, i: nat, l: Lock, ahead: bool)
    requires i < |q| && q[i].id != l.id
    ensures Deadlocks(DropAt(q, i), l, ahead) ==> Deadlocks(q, l, ahead)
  {
    if i == 0 {
      assert DropAt(q, 0) == q[1..];
      DeadlocksWhenAhead(q[1..], l);
    } else {
      assert DropAt(q, i)[1..] == DropAt(q[1..], i - 1);
      DeadlocksAfterDrop(q[1..], i - 1, l, ahead || q[0].id == l.id);
    }
  }

  lemma {:induction false} DeadlocksWhenAhead(q: seq<Lock>, l: Lock)
    ensures Deadlocks(q, l, true) ==> Deadlocks(q, l, false)
  {
    if q != [] && q[0].id != l.id {
      DeadlocksWhenAhead(q[1..], l);
    }
  }

  lemma {:induction false} DeadlocksAfterDemotion(q: seq<Lock>, i: nat, l: Lock, ahead: bool)
    requires i < |q| && q[i].id != l.id
    ensures Deadlocks(q[i := q[i].(gr := NL, demoted := true)], l, ahead) ==> Deadlocks(q, l, ahead)
  {
    var d := q[i := q[i].(gr := NL, demoted := true)];
    if i == 0 {
      assert d[1..] == q[1..];
    } else {
      assert d[1..] == q[1..][i - 1 := q[1..][i - 1].(gr := NL, demoted := true)];
      DeadlocksAfterDemotion(q[1..], i - 1, l, ahead || q[0].id == l.id);
    }
  }

  lemma {:induction false} NullNeverDeadlocks(q: seq<Lock>, l: Lock, ahead: bool)
    requires l.gr <= NL
    ensures !Deadlocks(q, l, ahead)
  {
    if q != [] {
      NullNeverDeadlocks(q[1..], l, ahead || q[0].id == l.id);
    }
  }

  /** An entry that asks for nothing any more is in nobody's way. */
  lemma {:induction false} DeadlocksAfterVoid(q: seq<Lock>, i: nat, m: Lock, l: Lock, ahead: bool)
    requires i < |q| && q[i].id == m.id != l.id && m.gr == q[i].gr && m.rq == IV
    ensures Deadlocks(q[i := m], l, ahead) ==> Deadlocks(q, l, ahead)
  {
    if i == 0 {
      assert q[i := m][1..] == q[1..];
      if Deadlocks(q[1..], l, ahead) {
        assert Deadlocks(q, l, ahead);
      }
    } else {
      assert q[i := m][1..] == q[1..][i - 1 := m];
      DeadlocksAfterVoid(q[1..], i - 1, m, l, ahead || q[0].id == l.id);
    }
  }

  /** ... and waits for nobody it did not wait for before. */
  lemma {:induction false} VoidDeadlocks(q: seq<Lock>, i: nat, m: Lock, ahead: bool)
    requires i <= |q| && (i < |q| ==> q[i].id == m.id && q[i].gr == m.gr) && m.rq == IV
    requires forall k :: 0 <= k < |q| && k != i ==> q[k].id != m.id
    ensures i < |q| && Deadlocks(q[i := m], m, ahead) ==> Deadlocks(q, q[i], ahead)
  {
    if 0 < i < |q| {
      assert q[i := m][1..] == q[1..][i - 1 := m];
      VoidDeadlocks(q[1..], i - 1, m, ahead);
    } else if i < |q| {
      assert q[i := m][1..] == q[1..];
      NothingAhead(q[1..], m);
    }
  }

  lemma {:induction false} NothingAhead(q: seq<Lock>, m: Lock)
    requires m.rq == IV
    ensures !Deadlocks(q, m, true)
  {
    if q != [] {
      NothingAhead(q[1..], m);
    }
  }

  /** Where a granted entry stood, or next to it, everything that was calm still is. */
  lemma GrantedCalm(r: Res, i: nat, x: Lock)
    requires Tidy(r) && i < |r.convert| && Judge(r, r.convert[i], false).granted
    requires x in r.convert && x.id != r.convert[i].id && Calm(r.convert, x)
    ensures Calm(ConvertStep(r, i).0.convert, x)
  {
    var m := Judge(r, r.convert[i], false).lock;
    if m.gr != m.rq {
      DeadlocksAfterDrop(r.convert, i, x, false);
    } else {
      DeadlocksAfterVoid(r.convert, i, AfterGrant(m), x, false);
    }
  }

  /** An alternative granted in place leaves an entry that is in no deadlock. */
  lemma InPlaceCalm(r: Res, i: nat)
    requires Tidy(r) && i < |r.convert| && Judge(r, r.convert[i], false).granted
    ensures var (s, j) := ConvertStep(r, i);
      j == if |s.convert| == |r.convert| then i + 1 else i
    ensures var s := ConvertStep(r, i).0;
      |s.convert| == |r.convert| ==> Calm(s.convert, s.convert[i])
  {
    var l := r.convert[i];
    var m := Judge(r, l, false).lock;
    assert l in r.convert;
    if m.gr == m.rq {
      VoidDeadlocks(r.convert, i, AfterGrant(m), false);
    }
  }

  /** After one step of the walk, everything already walked over is calm. */
  lemma GrantKeepsCalm(r: Res, i: nat)
    requires Tidy(r) && i < |r.convert| && Judge(r, r.convert[i], false).granted
    requires CalmUpTo(r.convert, i)
    ensures var (s, j) := ConvertStep(r, i); CalmUpTo(s.convert, j)
  {
    var (s, j) := ConvertStep(r, i);
    InPlaceCalm(r, i);
    forall k | 0 <= k < i ensures Calm(s.convert, s.convert[k]) {
      assert s.convert[k] == r.convert[k];
      GrantedCalm(r, i, r.convert[k]);
    }
  }

  lemma DemotionKeepsCalm(r: Res, i: nat)
    requires Tidy(r) && i < |r.convert| && !Judge(r, r.convert[i], false).granted
    requires CalmUpTo(r.convert, i)
    ensures var (s, j) := ConvertStep(r, i); j == i + 1 && CalmUpTo(s.convert, i + 1)
  {
    var l := r.convert[i];
    assert l in r.convert;
    var q := r.convert[i := Judge(r, l, false).lock];
    if l.gr <= NL {
      NullNeverDeadlocks(r.convert, l, false);
    }
    if Deadlocks(r.convert, l, false) && l.flags.convdeadlk {
      forall k | 0 <= k < i ensures Calm(q, q[k]) {
        DeadlocksAfterDemotion(r.convert, i, r.convert[k], false);
      }
      NullNeverDeadlocks(q, q[i], false);
    } else {
      assert q == r.convert;
    }
  }

  lemma StepKeepsCalm(r: Res, i: nat)
    requires Tidy(r) && i < |r.convert|
    requires CalmUpTo(r.convert, i)
    ensures var (s, j) := ConvertStep(r, i); Tidy(s) && CalmUpTo(s.convert, j)
  {
    ConvertStepTidy(r, i);
    if Judge(r, r.convert[i], false).granted {
      GrantKeepsCalm(r, i);
    } else {
      DemotionKeepsCalm(r, i);
    }
  }

  /** A walk over the convert queue leaves no conversion that a second walk would demote. */
  lemma {:induction false} ConvertPassCalms(r: Res, i: nat)
    requires Tidy(r) && i <= |r.convert|
    requires CalmUpTo(r.convert, i)
    ensures var q := ConvertPass(r, i).res.convert; CalmUpTo(q, |q|)
    decreases |r.convert| - i
  {
    if i < |r.convert| {
      StepKeepsCalm(r, i);
      var (next, j) := ConvertStep(r, i);
      ConvertPassCalms(next, j);
    }
  }

  /** A walk that grants nothing and demotes nothing has seen that nothing can be granted. */
  lemma {:induction false} IdlePass(r: Res, i: nat)
    requires Tidy(r) && i <= |r.convert|
    requires !ConvertPass(r, i).granted && !ConvertPass(r, i).demoted
    ensures ConvertPass(r, i).res == r
    ensures forall k :: i <= k < |r.convert| ==> !Judge(r, r.convert[k], false).granted
    decreases |r.convert| - i
  {
    if i < |r.convert| {
      var l := r.convert[i];
      assert l in r.convert;
      if l.gr <= NL {
        NullNeverDeadlocks(r.convert, l, false);
      }
      assert r.convert[i := l] == r.convert;
      assert ConvertStep(r, i).0 == r;
      IdlePass(r, i + 1);
    }
  }

  lemma CalmAfterGrant(r: Res, i: nat)
    requires Tidy(r) && i < |r.convert| && Judge(r, r.convert[i], false).granted
    requires CalmUpTo(r.convert, |r.convert|)
    ensures var s := ConvertStep(r, i).0; CalmUpTo(s.convert, |s.convert|)
  {
    var q := ConvertStep(r, i).0.convert;
    InPlaceCalm(r, i);
    forall k | 0 <= k < |q| && !(|q| == |r.convert| && k == i) ensures Calm(q, q[k]) {
      var n := if |q| == |r.convert| || k < i then k else k + 1;
      assert q[k] == r.convert[n];
      GrantedCalm(r, i, r.convert[n]);
    }
  }

  lemma {:induction false} CalmPassDoesNotDemote(r: Res, i: nat)
    requires Tidy(r) && i <= |r.convert|
    requires CalmUpTo(r.convert, |r.convert|)
    ensures !ConvertPass(r, i).demoted
    decreases |r.convert| - i
  {
    if i < |r.convert| {
      var l := r.convert[i];
      assert l in r.convert;
      ConvertStepTidy(r, i);
      var (next, j) := ConvertStep(r, i);
      if Judge(r, l, false).granted {
        CalmAfterGrant(r, i);
      } else {
        assert next == r;
      }
      CalmPassDoesNotDemote(next, j);
    }
  }

  lemma {:induction false} SettleConvertQuiet(r: Res, quit: bool)
    requires Tidy(r)
    requires quit ==> CalmUpTo(r.convert, |r.convert|)
    ensures QuietConvert(SettleConvert(r, quit).res)
    decreases Weight(r.convert), !quit
  {
    ConvertPassTidy(r, 0);
    ConvertPassCalms(r, 0);
    var p := ConvertPass(r, 0);
    if p.granted {
      SettleConvertQuiet(p.res, quit);
    } else if p.demoted && !quit {
      SettleConvertQuiet(p.res, true);
    } else {
      if quit {
        CalmPassDoesNotDemote(r, 0);
      }
      IdlePass(r, 0);
    }
  }

  // ----- the single walk over the wait queue

  ghost predicate Blocks(r: Res, l: Lock) {
    Conflicts(r.grant, l) || Conflicts(r.convert, l)
  }

  /** If every holder of `r` still holds in `s`, what was blocked by a mode is still blocked. */
  lemma BlocksMono(r: Res, s: Res, l: Lock)
    requires forall x :: Holds(r, x) && x.id != l.id ==> exists y :: Holds(s, y) && y.id == x.id && y.gr == x.gr
    ensures Blocks(r, l) ==> Blocks(s, l)
  {
    if Blocks(r, l) {
      var x :| Holds(r, x) && x.id != l.id && !Compat(x.gr, l.rq);
      var y :| Holds(s, y) && y.id == x.id && y.gr == x.gr;
    }
  }

  /** Skipped waiters never gain position: after a waiter has been granted, whatever stood before it, and
      every queued conversion, is still blocked. */
  lemma GrantKeepsBlocked(r: Res, k: nat, x: Lock)
    requires Tidy(r) && k < |r.wait| && Judge(r, r.wait[k], false).granted
    requires x in r.convert || x in r.wait[..k]
    ensures Judge(GrantWait(r, k, Judge(r, r.wait[k], false).lock), x, false).granted ==> Judge(r, x, false).granted
  {
    var m := Judge(r, r.wait[k], false).lock;
    var s := GrantWait(r, k, m);
    GrantWaitSafe(r, k, m);
    InsertOrderedMembers(r.grant, AfterGrant(m), m.rq);
    assert s.convert == r.convert && s.wait == DropAt(r.wait, k);
    assert forall y :: Holds(r, y) ==> Holds(s, y);
    PositionKept(r.wait, k, x);
    StillBlocked(r, s, x);
    StillBlocked(r, s, x.(rq := AltMode(x.rq, x.flags)));
  }

  lemma PositionKept(q: seq<Lock>, k: nat, x: Lock)
    requires k < |q| && UniqueIds(q)
    requires (forall y :: y in q ==> y.id != x.id) || x in q[..k]
    ensures First(DropAt(q, k), x) ==> First(q, x)
  {
    if x in q[..k] {
      assert DropAt(q, k)[0] == q[0];
    } else {
      DropAtMembers(q, k);
    }
  }

  lemma StillBlocked(r: Res, s: Res, x: Lock)
    requires forall y :: Holds(r, y) ==> Holds(s, y)
    requires s.convert == r.convert && (First(s.wait, x) ==> First(r.wait, x))
    ensures Grantable(s, x, false) ==> Grantable(r, x, false)
  {
    BlocksMono(r, s, x);
  }

  lemma WaitStepQuiet(r: Res, i: nat)
    requires Tidy(r) && QuietConvert(r) && i < |r.wait| && Judge(r, r.wait[i], false).granted
    requires forall k :: 0 <= k < i ==> !Judge(r, r.wait[k], false).granted
    ensures
      var s := GrantWait(r, i, Judge(r, r.wait[i], false).lock);
      QuietConvert(s) && |s.wait| == |r.wait| - 1 && forall k :: 0 <= k < i ==> !Judge(s, s.wait[k], false).granted
  {
    assert r.wait[i] in r.wait;
    var s := GrantWait(r, i, Judge(r, r.wait[i], false).lock);
    assert s.convert == r.convert && s.wait == DropAt(r.wait, i);
    forall x | x in s.convert ensures !Judge(s, x, false).granted {
      GrantKeepsBlocked(r, i, x);
    }
    forall k | 0 <= k < i ensures !Judge(s, s.wait[k], false).granted {
      assert s.wait[k] == r.wait[..i][k];
      GrantKeepsBlocked(r, i, s.wait[k]);
    }
  }

  lemma {:induction false} WaitPassQuiet(r: Res, i: nat)
    requires Tidy(r) && QuietConvert(r) && i <= |r.wait|
    requires forall k :: 0 <= k < i ==> !Judge(r, r.wait[k], false).granted
    ensures Quiet(WaitPass(r, i).res)
    decreases |r.wait| - i
  {
    if i < |r.wait| {
      var l := r.wait[i];
      var v := Judge(r, l, false);
      assert l in r.wait;
      if v.granted {
        GrantWaitSafe(r, i, v.lock);
        WaitStepQuiet(r, i);
        WaitPassQuiet(GrantWait(r, i, v.lock), i);
      } else {
        assert r.wait[i := v.lock] == r.wait;
        assert r.(wait := r.wait[i := v.lock]) == r;
        WaitPassQuiet(r, i + 1);
      }
    }
  }

  /** One call is enough: afterwards neither queue holds anything that could be granted. */
  lemma SettleAllQuiet(r: Res)
    requires Tidy(r)
    ensures Quiet(SettleAll(r).res)
  {
    SettleConvertTidy(r, false);
    SettleConvertQuiet(r, false);
    WaitPassQuiet(SettleConvert(r, false).res, 0);
  }
}

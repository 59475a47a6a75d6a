/** First come, first served, over whole histories. */
module Turns {
  import opened Modes
  import opened Resource
  import opened Shape
  import opened Safety
  import opened Evolution
  import opened Operations
  import opened Quiescence
  import opened Order
  import opened Runs
  import opened Answers

  /** Everybody who is waiting for something: the queued conversions, then the waiters. */
  function Line(r: Res): seq<LkId> {
    Ids(r.convert) + Ids(r.wait)
  }

  /** Of those who stood in line (other than `id`, which was operated on), none was granted before one that
      stood in front of it. */
  ghost predicate NobodyOvertaken(line: seq<LkId>, id: LkId, grants: seq<LkId>) {
    forall i, j :: 0 <= i < j < |line| && line[j] in grants && line[i] != id ==> line[i] in grants
  }

  lemma LineDistinct(r: Res)
    requires WellShaped(r)
    ensures Distinct(Line(r))
  {
    var c, w := Ids(r.convert), Ids(r.wait);
    forall i, j | 0 <= i < j < |c + w| ensures (c + w)[i] != (c + w)[j] {
      if i < |c| <= j {
        assert r.convert[i] in r.convert && r.wait[j - |c|] in r.wait;
      }
    }
  }

  lemma ServedIsPrefix(r: Res, s: Res, grants: seq<LkId>)
    requires InArrivalOrder(r, s, grants)
    ensures |grants| <= |Line(r)| && grants == Line(r)[..|grants|]
  {
  }

  lemma PrefixNobodyOvertaken(line: seq<LkId>, id: LkId, k: nat)
    requires Distinct(line) && k <= |line|
    ensures NobodyOvertaken(line, id, line[..k])
  {
    forall i, j | 0 <= i < j < |line| && line[j] in line[..k] ensures line[i] in line[..k] {
      var n :| 0 <= n < k && line[..k][n] == line[j];
      assert line[..k][i] == line[i];
    }
  }

  lemma RemovedNobodyOvertaken(line: seq<LkId>, p: nat, grants: seq<LkId>)
    requires p < |line| && Distinct(line)
    requires line[p] !in grants && NobodyOvertaken(line[..p] + line[p + 1..], line[p], grants)
    ensures NobodyOvertaken(line, line[p], grants)
  {
    var short := line[..p] + line[p + 1..];
    forall i, j | 0 <= i < j < |line| && line[j] in grants && line[i] != line[p] ensures line[i] in grants {
      var i', j' := if i < p then i else i - 1, if j < p then j else j - 1;
      assert short[i'] == line[i] && short[j'] == line[j];
    }
  }

  ghost predicate Removed(line: seq<LkId>, short: seq<LkId>, id: LkId) {
    exists p :: 0 <= p < |line| && line[p] == id && short == line[..p] + line[p + 1..]
  }

  lemma IdsAfterDrop(q: seq<Lock>, i: nat)
    requires i < |q|
    ensures Ids(DropAt(q, i)) == Ids(q)[..i] + Ids(q)[i + 1..]
  {
  }

  lemma RemovedAt(c: seq<LkId>, w: seq<LkId>, p: nat)
    ensures p < |c| ==> Removed(c + w, (c[..p] + c[p + 1..]) + w, c[p])
    ensures p < |w| ==> Removed(c + w, c + (w[..p] + w[p + 1..]), w[p])
  {
    if p < |c| {
      assert (c[..p] + c[p + 1..]) + w == (c + w)[..p] + (c + w)[p + 1..];
    }
    if p < |w| {
      var n := |c| + p;
      assert c + (w[..p] + w[p + 1..]) == (c + w)[..n] + (c + w)[n + 1..];
      assert (c + w)[n] == w[p];
    }
  }

  lemma LineAfterDrop(r: Res, s: Res, id: LkId)
    requires WellShaped(r) && s.convert == Drop(r.convert, id) && s.wait == Drop(r.wait, id)
    ensures Has(r.convert, id) || Has(r.wait, id) ==> Removed(Line(r), Line(s), id)
  {
    NotKnown(r, id);
    if Has(r.convert, id) {
      assert r.convert[Index(r.convert, id)] in r.convert;
      LineAfterDropAt(r.convert, r.wait, Index(r.convert, id));
    } else if Has(r.wait, id) {
      LineAfterDropAt(r.convert, r.wait, |r.convert| + Index(r.wait, id));
    }
  }

  lemma LineAfterDropAt(c: seq<Lock>, w: seq<Lock>, i: nat)
    requires i < |c| + |w|
    ensures i < |c| ==> Removed(Ids(c) + Ids(w), Ids(DropAt(c, i)) + Ids(w), c[i].id)
    ensures i >= |c| ==> Removed(Ids(c) + Ids(w), Ids(c) + Ids(DropAt(w, i - |c|)), w[i - |c|].id)
  {
    if i < |c| {
      IdsAfterDrop(c, i);
      RemovedAt(Ids(c), Ids(w), i);
    } else {
      IdsAfterDrop(w, i - |c|);
      RemovedAt(Ids(c), Ids(w), i - |c|);
    }
  }

  lemma RemovedFromLine(line: seq<LkId>, short: seq<LkId>, id: LkId, k: nat)
    requires Distinct(line) && Distinct(short) && Removed(line, short, id) && k <= |short|
    ensures NobodyOvertaken(line, id, short[..k])
  {
    var p :| 0 <= p < |line| && line[p] == id && short == line[..p] + line[p + 1..];
    forall n | 0 <= n < k ensures short[..k][n] != id {
      assert short[n] == line[if n < p then n else n + 1];
    }
    PrefixNobodyOvertaken(short, id, k);
    RemovedNobodyOvertaken(line, p, short[..k]);
  }

  /** Re-examining the queues after `id` has left the line overtakes nobody. */
  lemma SettleAfterRemoval(r: Res, s: Res, id: LkId)
    requires Sound(r) && Sound(s) && InTurn(s)
    requires s.convert == Drop(r.convert, id) && s.wait == Drop(r.wait, id)
    ensures NobodyOvertaken(Line(r), id, SettleAll(s).grants)
  {
    SettleAllInOrder(s);
    var t := SettleAll(s);
    ServedIsPrefix(s, t.res, t.grants);
    LineDistinct(s);
    LineDistinct(r);
    LineAfterDrop(r, s, id);
    if Has(r.convert, id) || Has(r.wait, id) {
      RemovedFromLine(Line(r), Line(s), id, |t.grants|);
    } else {
      PrefixNobodyOvertaken(Line(r), id, |t.grants|);
    }
  }

  lemma SettleInOrderAfter(r: Res, s: Res, grants: seq<LkId>)
    requires Sound(s) && InTurn(s) && s.wait == r.wait && InArrivalOrder(r, s, grants)
    ensures var g := grants + SettleAll(s).grants; |g| <= |Line(r)| && g == Line(r)[..|g|]
  {
    SettleAllInOrder(s);
    var t := SettleAll(s);
    ArrivalTrans(r, s, t.res, grants, t.grants);
    ServedIsPrefix(r, t.res, grants + t.grants);
  }

  /** A conversion serves the line twice at most: once when it is demoted, once when it is granted. */
  lemma ConvertOvertakesNobody(r: Res, id: LkId, mode: Mode, f: Flags)
    requires Sound(r) && Stuck(r) && InTurn(r) && Legal(r, Convert(id, mode, f)) && KeepsLock(mode, f) && !f.noorder
    requires Has(r.grant, id)
    ensures var o := DoConvert(r, id, mode, f); NobodyOvertaken(Line(r), id, o.before + o.after)
  {
    var l0 := r.grant[Index(r.grant, id)];
    var l := SetConvert(l0, mode, f);
    RewriteEvolves(r, l0, l);
    RewriteStuck(r, l0, l);
    ConvertServesPrefix(r.(grant := Replace(r.grant, l)), l);
    LineDistinct(r);
    var o := DoConvert(r, id, mode, f);
    PrefixNobodyOvertaken(Line(r), id, |o.before + o.after|);
  }

  lemma ConvertServesPrefix(r: Res, l: Lock)
    requires Sound(r) && Stuck(r) && InTurn(r) && l in r.grant && !l.demoted
    requires ConvertArgs(l.gr, l.rq, l.flags) && KeepsLock(l.rq, l.flags)
    ensures var n := ConvertNow(r, l);
      var g := n.before + if n.rc == Ok then SettleAll(n.res).grants else n.after;
      |g| <= |Line(r)| && g == Line(r)[..|g|]
  {
    var n := ConvertNow(r, l);
    ConvertNowInOrder(r, l);
    ConvertNowEvolves(r, l);
    if n.rc == Ok {
      SettleInOrderAfter(r, n.res, n.before);
    } else {
      assert n.before + n.after == n.before;
    }
  }

  lemma DemotionInOrder(r: Res, m: Lock)
    requires Sound(r) && InTurn(r)
    ensures var s := SettleConvert(r.(grant := Replace(r.grant, m)), false);
      Sound(r.(grant := Replace(r.grant, m))) ==>
      && |s.grants| <= |Line(r)| && s.grants == Line(r)[..|s.grants|]
      && InArrivalOrder(r, s.res, s.grants) && InTurn(s.res) && s.res.wait == r.wait
  {
    var r1 := r.(grant := Replace(r.grant, m));
    if Sound(r1) {
      SettleConvertInOrder(r1, false);
      var s := SettleConvert(r1, false);
      ServedIsPrefix(r1, s.res, s.grants);
      assert Line(r1) == Line(r);
    }
  }

  lemma ConvertNowInOrder(r: Res, l: Lock)
    requires Sound(r) && InTurn(r) && l in r.grant && !l.demoted
    requires ConvertArgs(l.gr, l.rq, l.flags)
    ensures var o := ConvertNow(r, l);
      && |o.before| <= |Line(r)| && o.before == Line(r)[..|o.before|]
      && (o.rc == Ok ==> InArrivalOrder(r, o.res, o.before) && InTurn(o.res) && o.res.wait == r.wait)
  {
    var v := Judge(r, l, true);
    Untouched(r, GrantHere(r, v.lock));
    if !v.granted && v.lock.demoted {
      RewriteEvolves(r, l, v.lock);
      DemotionInOrder(r, v.lock);
    }
  }

  ghost predicate NoQueueJumping(ops: seq<Op>) {
    && KeepingRun(ops)
    && forall op :: op in ops && (op.Request? || op.Convert?) ==> !op.flags.noorder && !op.flags.expedite
  }

  /** Over every run without the flags that ask for it, nobody is overtaken: not by those granted from the
      queues, and not by a new request. */
  lemma {:induction false} NobodyIsEverOvertaken(rs: seq<Res>, ops: seq<Op>, n: nat)
    requires IsRun(rs, ops) && NoQueueJumping(ops) && n <= |ops|
    ensures InTurn(rs[n])
    ensures n > 0 ==>
      var o := Apply(rs[n - 1], ops[n - 1]);
      && NobodyOvertaken(Line(rs[n - 1]), ops[n - 1].id, o.before + o.after)
      && (ops[n - 1].Request? && o.rc == Ok ==> Line(rs[n - 1]) == [])
  {
    if n > 0 {
      var r, op := rs[n - 1], ops[n - 1];
      NobodyIsEverOvertaken(rs, ops, n - 1);
      EveryKeepingRunIsSound(rs, ops, n - 1);
      EveryKeepingRunIsSound(rs, ops, n);
      assert Step(r, op, rs[n]) && op in ops;
      StepInTurn(r, op);
      StepOvertakesNobody(r, op);
    }
  }

  /** ... nor by a conversion with QUECVT, which is granted only when everybody is who was on the convert queue. */
  lemma QuecvtWaitsItsTurn(rs: seq<Res>, ops: seq<Op>, n: nat)
    requires IsRun(rs, ops) && KeepingRun(ops) && n < |ops| && ops[n].Convert? && ops[n].flags.quecvt
    requires Live(rs[n].convert) && Has(rs[n].grant, ops[n].id)
    ensures
      var o := Apply(rs[n], ops[n]);
      && (o.rc == Ok ==> forall x :: x in rs[n].convert ==> x.id in o.before)
      && (o.rc == Ok && !ops[n].flags.convdeadlk ==> rs[n].convert == [])
  {
    EveryKeepingRunIsSound(rs, ops, n);
    assert Step(rs[n], ops[n], rs[n + 1]);
    QuecvtWaits(rs[n], ops[n].id, ops[n].mode, ops[n].flags);
    if !ops[n].flags.convdeadlk {
      assert rs[n].grant[Index(rs[n].grant, ops[n].id)] in rs[n].grant;
      ConvertAnswer(rs[n], ops[n].id, ops[n].mode, ops[n].flags);
    }
  }

  lemma StepOvertakesNobody(r: Res, op: Op)
    requires Sound(r) && Stuck(r) && InTurn(r) && Legal(r, op)
    requires op.Request? || op.Convert? ==> !op.flags.noorder && !op.flags.expedite
    requires op.Convert? ==> KeepsLock(op.mode, op.flags)
    ensures
      var o := Apply(r, op);
      && NobodyOvertaken(Line(r), op.id, o.before + o.after)
      && (op.Request? && o.rc == Ok ==> Line(r) == [])
  {
    match op
    case Request(id, mode, f) => RequestWaitsItsTurn(r, Fresh(id, mode, f));
    case Convert(id, mode, f) => if Has(r.grant, id) { ConvertOvertakesNobody(r, id, mode, f); }
    case Unlock(id) =>
      if Known(r, id) {
        UnlockOvertakesNobody(r, id);
      }
    case Cancel(id) => CancelOvertakesNobody(r, id);
  }

  lemma UnlockOvertakesNobody(r: Res, id: LkId)
    requires Sound(r) && InTurn(r)
    ensures var o := DoUnlock(r, id); NobodyOvertaken(Line(r), id, o.before + o.after)
  {
    var o := DoUnlock(r, id);
    assert o.before + o.after == o.after;
    if Known(r, id) {
      DropSound(r, id);
      DropInTurn(r, id);
      SettleAfterRemoval(r, Res(Drop(r.grant, id), Drop(r.convert, id), Drop(r.wait, id)), id);
    }
  }

  lemma StepInTurn(r: Res, op: Op)
    requires Sound(r) && Stuck(r) && InTurn(r) && Legal(r, op) && (op.Convert? ==> KeepsLock(op.mode, op.flags))
    requires op.Request? || op.Convert? ==> !op.flags.noorder
    ensures InTurn(Apply(r, op).res)
  {
    StepInherits(r, op);
    var s := Apply(r, op).res;
    forall x | x in s.convert || x in s.wait ensures !x.flags.noorder {
      assert On(s, Converting, x) || On(s, Waiting, x);
    }
  }

  lemma DropInTurn(r: Res, id: LkId)
    requires WellShaped(r) && InTurn(r)
    ensures InTurn(Res(Drop(r.grant, id), Drop(r.convert, id), Drop(r.wait, id)))
  {
    DropMembers(r.convert, id);
    DropMembers(r.wait, id);
  }

  lemma CancelOvertakesNobody(r: Res, id: LkId)
    requires Sound(r) && InTurn(r)
    ensures var o := DoCancel(r, id); NobodyOvertaken(Line(r), id, o.before + o.after)
  {
    var o := DoCancel(r, id);
    assert o.before + o.after == o.after;
    if Has(r.grant, id) {
    } else if Has(r.convert, id) {
      CancelConversion(r, id);
    } else if Has(r.wait, id) {
      NotKnown(r, id);
      DropInTurn(r, id);
      DropSound(r, id);
      SettleAfterRemoval(r, r.(wait := Drop(r.wait, id)), id);
    }
  }

  lemma CancelConversion(r: Res, id: LkId)
    requires Sound(r) && InTurn(r) && Has(r.convert, id)
    ensures var l := r.convert[Index(r.convert, id)].(rq := IV);
      var s := r.(grant := InsertOrdered(r.grant, l, l.gr), convert := Drop(r.convert, id));
      Live(s.convert) && NobodyOvertaken(Line(r), id, SettleAll(s).grants)
  {
    NotKnown(r, id);
    DropInTurn(r, id);
    RevertSound(r, id);
    var l := r.convert[Index(r.convert, id)].(rq := IV);
    SettleAfterRemoval(r, r.(grant := InsertOrdered(r.grant, l, l.gr), convert := Drop(r.convert, id)), id);
  }
}

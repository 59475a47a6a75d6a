/** One lock resource on its master, as values: the three queues, the test that decides whether a lock can
    be granted, and the four operations with the re-examination of the queues that follows them.  The
    classes in Engine.dfy are proved to compute exactly these functions. */
module Resource {
  import opened Modes

  /** A lock, named by the node that asked for it and a number on that node. */
  datatype LkId = LkId(node: nat, lkid: nat)

  datatype Flags = Flags(noqueue: bool, convdeadlk: bool, nodlckwt: bool, expedite: bool, quecvt: bool,
                         headque: bool, noorder: bool, altpr: bool, altcw: bool)

  datatype Lock = Lock(id: LkId, gr: Mode, rq: Mode, flags: Flags, demoted: bool, altmode: bool)

  datatype Res = Res(grant: seq<Lock>, convert: seq<Lock>, wait: seq<Lock>)

  /** No flags at all. */
  const PLAIN := Flags(false, false, false, false, false, false, false, false, false)

  /** A lock held in mode `m` that asks for nothing. */
  function Held(id: LkId, m: Mode, f: Flags, alt: bool): Lock {
    Lock(id, m, IV, f, false, alt)
  }

  /** The status word of a lock, which says which queue it is on. */
  datatype Status = Granted | Converting | Waiting

  const EmptyRes := Res([], [], [])

  // ----- the queues

  function DropAt(q: seq<Lock>, i: nat): seq<Lock>
    requires i < |q|
  {
    q[..i] + q[i + 1..]
  }

  /** The granted queue is walked until an entry whose *requested* mode is lower. */
  function InsertOrdered(q: seq<Lock>, l: Lock, mode: Mode): seq<Lock> {
    if q == [] then [l]
    else if q[0].rq < mode then [l] + q
    else [q[0]] + InsertOrdered(q[1..], l, mode)
  }

  function Enqueue(q: seq<Lock>, l: Lock): seq<Lock> {
    if l.flags.headque then [l] + q else q + [l]
  }

  predicate First(q: seq<Lock>, l: Lock) {
    q != [] && q[0].id == l.id
  }

  /** Where a lock stands in a queue; the length of the queue when it is not there. */
  function Index(q: seq<Lock>, id: LkId): (i: nat)
    ensures i <= |q|
    ensures i < |q| ==> q[i].id == id
    ensures forall k :: 0 <= k < i ==> q[k].id != id
  {
    if q == [] then 0 else if q[0].id == id then 0 else 1 + Index(q[1..], id)
  }

  predicate Has(q: seq<Lock>, id: LkId) {
    Index(q, id) < |q|
  }

  function Drop(q: seq<Lock>, id: LkId): seq<Lock> {
    if Has(q, id) then DropAt(q, Index(q, id)) else q
  }

  function Replace(q: seq<Lock>, l: Lock): seq<Lock> {
    if Has(q, l.id) then q[Index(q, l.id) := l] else q
  }

  predicate Known(r: Res, id: LkId) {
    Has(r.grant, id) || Has(r.convert, id) || Has(r.wait, id)
  }

  // ----- may this lock be granted?

  predicate Conflicts(q: seq<Lock>, l: Lock) {
    exists x :: x in q && x.id != l.id && !Compat(x.gr, l.rq)
  }

  /** Would `l` be in a conversion deadlock with the queued conversions? */
  predicate Deadlocks(q: seq<Lock>, l: Lock, ahead: bool) {
    if q == [] then false
    else if q[0].id == l.id then Deadlocks(q[1..], l, true)
    else
      (!Compat(l.gr, q[0].rq) && (ahead ==> !Compat(q[0].gr, l.rq)))
      || Deadlocks(q[1..], l, ahead)
  }

  /** The granting rules proper; `now` is true only while the operation that brought the request is being
      executed, and false for a lock that is already queued. */
  predicate Grantable(r: Res, l: Lock, now: bool) {
    if l.flags.expedite then true
    else if Conflicts(r.grant, l) then false
    else if Conflicts(r.convert, l) then false
    else if now && l.gr != IV && !l.flags.quecvt then true
    else if now && l.gr != IV && l.flags.quecvt then r.convert == []
    else if l.flags.noorder then true
    else if !now && l.gr != IV && First(r.convert, l) then true
    else if now && l.gr == IV && r.convert == [] && r.wait == [] then true
    else !now && l.gr == IV && r.convert == [] && First(r.wait, l)
  }

  /** The mode to try when the requested one cannot be had; NL when there is none. */
  function AltMode(rq: Mode, f: Flags): Mode {
    if rq != PR && f.altpr then PR else if rq != CW && f.altcw then CW else NL
  }

  datatype Verdict = Verdict(granted: bool, lock: Lock, deadlk: bool)

  /** The full test: it may rewrite the lock (demotion, alternative mode) and report a deadlock. */
  function Judge(r: Res, l: Lock, now: bool): Verdict {
    if Grantable(r, l, now) then Verdict(true, l, false)
    else if l.gr != IV && !l.flags.noqueue && Deadlocks(r.convert, l, false) then
      if l.flags.convdeadlk then Verdict(false, l.(gr := NL, demoted := true), false)
      else Verdict(false, l, true)
    else
      var alt := AltMode(l.rq, l.flags);
      if alt != NL && Grantable(r, l.(rq := alt), now) then Verdict(true, l.(rq := alt, altmode := true), false)
      else Verdict(false, l, false)
  }

  // ----- granting

  /** A lock that has just been granted what it asked for. */
  function AfterGrant(l: Lock): Lock {
    l.(gr := l.rq, rq := IV)
  }

  function GrantConvert(r: Res, i: nat, l: Lock): Res
    requires i < |r.convert|
  {
    if l.gr != l.rq then Res(InsertOrdered(r.grant, AfterGrant(l), l.rq), DropAt(r.convert, i), r.wait)
    else r.(convert := r.convert[i := AfterGrant(l)])
  }

  function GrantWait(r: Res, i: nat, l: Lock): Res
    requires i < |r.wait|
  {
    if l.gr != l.rq then Res(InsertOrdered(r.grant, AfterGrant(l), l.rq), r.convert, DropAt(r.wait, i))
    else r.(wait := r.wait[i := AfterGrant(l)])
  }

  /** Granting a lock that is, or is not yet, on the granted queue. */
  function GrantHere(r: Res, l: Lock): Res {
    if l.gr != l.rq then r.(grant := InsertOrdered(Drop(r.grant, l.id), AfterGrant(l), l.rq))
    else r.(grant := Replace(r.grant, AfterGrant(l)))
  }

  // ----- re-examining the queues

  /** What is left to do on the convert queue: an entry, and one more step for a request not yet voided. */
  function Weight(q: seq<Lock>): nat {
    if q == [] then 0 else (if q[0].rq == IV then 1 else 2) + Weight(q[1..])
  }

  lemma {:induction false} WeightOfConcat(a: seq<Lock>, b: seq<Lock>)
    ensures Weight(a + b) == Weight(a) + Weight(b)
  {
    if a == [] {
      assert a + b == b;
    } else {
      assert (a + b)[1..] == a[1..] + b;
      WeightOfConcat(a[1..], b);
    }
  }

  lemma WeightAt(q: seq<Lock>, i: nat, l: Lock)
    requires i < |q|
    ensures Weight(DropAt(q, i)) == Weight(q) - Weight([q[i]])
    ensures Weight(q[i := l]) == Weight(q) - Weight([q[i]]) + Weight([l])
  {
    assert q == q[..i] + ([q[i]] + q[i + 1..]);
    assert q[i := l] == q[..i] + ([l] + q[i + 1..]);
    WeightOfConcat(q[..i], [q[i]] + q[i + 1..]);
    WeightOfConcat([q[i]], q[i + 1..]);
    WeightOfConcat(q[..i], [l] + q[i + 1..]);
    WeightOfConcat([l], q[i + 1..]);
    WeightOfConcat(q[..i], q[i + 1..]);
  }

  /** Every queued conversion has something to convert from or to; otherwise the restart loop would spin. */
  predicate Live(q: seq<Lock>) {
    forall l :: l in q ==> l.gr != IV || l.rq != IV
  }

  datatype Pass = Pass(res: Res, granted: bool, demoted: bool, grants: seq<LkId>)

  /** What one entry of the convert queue does to the resource, and where the walk goes next. */
  function ConvertStep(r: Res, i: nat): (t: (Res, nat))
    requires i < |r.convert| && Live(r.convert)
    ensures Live(t.0.convert)
    ensures t.0.wait == r.wait
    ensures i <= t.1 <= |t.0.convert| && |t.0.convert| - t.1 == |r.convert| - i - 1
    ensures Weight(t.0.convert) <= Weight(r.convert)
    ensures Judge(r, r.convert[i], false).granted ==> Weight(t.0.convert) < Weight(r.convert)
  {
    var v := Judge(r, r.convert[i], false);
    WeightAt(r.convert, i, AfterGrant(v.lock));
    WeightAt(r.convert, i, v.lock);
    if v.granted then (GrantConvert(r, i, v.lock), if v.lock.gr != v.lock.rq then i else i + 1)
    else (r.(convert := r.convert[i := v.lock]), i + 1)
  }

  /** One walk over the convert queue from position `i` on. */
  function ConvertPass(r: Res, i: nat): (p: Pass)
    requires Live(r.convert) && i <= |r.convert|
    ensures Live(p.res.convert) && p.res.wait == r.wait
    ensures Weight(p.res.convert) <= Weight(r.convert)
    ensures p.granted ==> Weight(p.res.convert) < Weight(r.convert)
    decreases |r.convert| - i
  {
    if i == |r.convert| then Pass(r, false, false, [])
    else
      var l := r.convert[i];
      var v := Judge(r, l, false);
      var (next, k) := ConvertStep(r, i);
      var p := ConvertPass(next, k);
      if v.granted then Pass(p.res, true, p.demoted, [l.id] + p.grants)
      else Pass(p.res, p.granted, p.demoted || (!l.demoted && v.lock.demoted), p.grants)
  }

  datatype Settled = Settled(res: Res, grants: seq<LkId>)

  /** Walks over the convert queue until one grants nothing; a walk that only demoted is repeated once. */
  function SettleConvert(r: Res, quit: bool): (s: Settled)
    requires Live(r.convert)
    ensures Live(s.res.convert) && s.res.wait == r.wait
    decreases Weight(r.convert), !quit
  {
    var p := ConvertPass(r, 0);
    if p.granted then
      var s := SettleConvert(p.res, quit);
      Settled(s.res, p.grants + s.grants)
    else if p.demoted && !quit then
      var s := SettleConvert(p.res, true);
      Settled(s.res, p.grants + s.grants)
    else Settled(p.res, p.grants)
  }

  /** The single walk over the wait queue. */
  function WaitPass(r: Res, i: nat): (s: Settled)
    ensures s.res.convert == r.convert
    decreases |r.wait| - i
  {
    if i >= |r.wait| then Settled(r, [])
    else
      var l := r.wait[i];
      var v := Judge(r, l, false);
      if v.granted then
        var s := WaitPass(GrantWait(r, i, v.lock), if v.lock.gr != v.lock.rq then i else i + 1);
        Settled(s.res, [l.id] + s.grants)
      else WaitPass(r.(wait := r.wait[i := v.lock]), i + 1)
  }

  function SettleAll(r: Res): (s: Settled)
    requires Live(r.convert)
    ensures Live(s.res.convert)
  {
    var c := SettleConvert(r, false);
    var w := WaitPass(c.res, 0);
    Settled(w.res, c.grants + w.grants)
  }

  // ----- the four operations

  datatype Rc = Ok | InProgress | Again | Deadlk | Unlocked | Cancelled | Nothing | Busy | NoEnt

  /** The new resource, the return code, and the locks granted before and after the reply is sent. */
  datatype Outcome = Outcome(res: Res, rc: Rc, before: seq<LkId>, after: seq<LkId>)

  function Fresh(id: LkId, mode: Mode, f: Flags): Lock {
    Lock(id, IV, mode, f, false, false)
  }

  function DoRequest(r: Res, l: Lock): Outcome {
    var v := Judge(r, l, true);
    if v.granted then Outcome(GrantHere(r, v.lock), Ok, [], [])
    else if !l.flags.noqueue then Outcome(r.(wait := Enqueue(r.wait, v.lock)), InProgress, [], [])
    else Outcome(r, Again, [], [])
  }

  /** The lock with the arguments of a conversion filled in. */
  function SetConvert(l: Lock, mode: Mode, f: Flags): Lock {
    l.(rq := mode, flags := f, demoted := false, altmode := false)
  }

  /** A conversion that was not granted at once: a demotion lets others in first, and perhaps this lock
      after all; otherwise it is queued, if it may be. */
  function ConvertRest(r: Res, l: Lock): (o: Outcome)
    requires Live(r.convert)
    ensures o.rc == Ok ==> Live(o.res.convert)
  {
    var s := if l.demoted then SettleConvert(r, false) else Settled(r, []);
    if l.demoted && Grantable(s.res, l, true) then Outcome(GrantHere(s.res, l), Ok, s.grants, [])
    else if !l.flags.noqueue then
      Outcome(s.res.(grant := Drop(s.res.grant, l.id), convert := Enqueue(s.res.convert, l)), InProgress, s.grants, [])
    else Outcome(s.res, Again, s.grants, [])
  }

  /** The first half of a conversion: what happens before the reply is sent.  `l` stands on the granted
      queue with its arguments filled in. */
  function ConvertNow(r: Res, l: Lock): (o: Outcome)
    requires Live(r.convert)
    ensures o.rc == Ok ==> Live(o.res.convert)
  {
    var v := Judge(r, l, true);
    if v.granted then Outcome(GrantHere(r, v.lock), Ok, [], [])
    else if v.deadlk && !l.flags.nodlckwt then
      Outcome(r.(grant := Replace(r.grant, v.lock.(rq := IV))), Deadlk, [], [])
    else ConvertRest(r.(grant := Replace(r.grant, v.lock)), v.lock)
  }

  function DoConvert(r: Res, id: LkId, mode: Mode, f: Flags): Outcome
    requires Live(r.convert)
  {
    if !Has(r.grant, id) then Outcome(r, if Known(r, id) then Busy else NoEnt, [], [])
    else
      var l := SetConvert(r.grant[Index(r.grant, id)], mode, f);
      var o := ConvertNow(r.(grant := Replace(r.grant, l)), l);
      if o.rc == Ok then
        var s := SettleAll(o.res);
        o.(res := s.res, after := s.grants)
      else o
  }

  function DoUnlock(r: Res, id: LkId): Outcome
    requires Live(r.convert)
  {
    if !Known(r, id) then Outcome(r, NoEnt, [], [])
    else
      var s := SettleAll(Res(Drop(r.grant, id), Drop(r.convert, id), Drop(r.wait, id)));
      Outcome(s.res, Unlocked, [], s.grants)
  }

  function DoCancel(r: Res, id: LkId): Outcome
    requires Live(r.convert)
  {
    if Has(r.grant, id) then
      Outcome(r.(grant := Replace(r.grant, r.grant[Index(r.grant, id)].(rq := IV))), Nothing, [], [])
    else if Has(r.convert, id) then
      var l := r.convert[Index(r.convert, id)].(rq := IV);
      var s := SettleAll(r.(grant := InsertOrdered(r.grant, l, l.gr), convert := Drop(r.convert, id)));
      Outcome(s.res, Cancelled, [], s.grants)
    else if Has(r.wait, id) then
      var s := SettleAll(r.(wait := Drop(r.wait, id)));
      Outcome(s.res, Cancelled, [], s.grants)
    else Outcome(r, NoEnt, [], [])
  }
}

/** Exactly which conversions can make an owner lose its lock: an alternative mode that is granted from the convert
    queue while it is the mode the lock has leaves the lock there, to be granted again in no mode at all. */
module LostLocks {
  import opened Modes
  import opened Resource
  import opened Shape
  import opened Safety
  import opened Evolution
  import opened Operations
  import opened Runs

  /** Everybody who holds a lock holds it in some mode. */
  ghost predicate NobodyLost(r: Res) {
    forall l :: Holds(r, l) ==> l.gr >= NL
  }

  predicate ConversionOf(mode: Mode, f: Flags, op: Op) {
    op.Convert? && op.mode == mode && op.flags == f
  }

  /** Whatever else happens, conversions are of the kind that keeps its lock, or special. */
  ghost predicate OtherwiseKeeping(ops: seq<Op>, special: Op -> bool) {
    forall op :: op in ops && op.Convert? ==> KeepsLock(op.mode, op.flags) || special(op)
  }

  ghost predicate NeverLost(special: Op -> bool) {
    forall rs, ops :: IsRun(rs, ops) && OtherwiseKeeping(ops, special) ==> NobodyLost(rs[|ops|])
  }

  /** Conversions to `mode` with flags `f` take nobody's lock away, in any run, exactly if they keep their lock: they
      name no alternative that could take the place of `mode`, or they are not queued with their mode kept while in
      a deadlock. */
  lemma ConversionsKeepLocksExactly(mode: Mode, f: Flags)
    requires mode >= NL && !f.expedite
    ensures NeverLost(op => ConversionOf(mode, f, op)) <==> KeepsLock(mode, f)
  {
    if KeepsLock(mode, f) {
      forall rs, ops | IsRun(rs, ops) && OtherwiseKeeping(ops, op => ConversionOf(mode, f, op))
        ensures NobodyLost(rs[|ops|]) {
        EveryKeepingRunIsSound(rs, ops, |ops|);
      }
    } else {
      QueuedAlternativeLosesTheLock(mode, f);
      var rs :| IsRun(rs, LosingRun(mode, f)) && !NobodyLost(rs[5]);
      assert OtherwiseKeeping(LosingRun(mode, f), op => ConversionOf(mode, f, op));
    }
  }

  // ----- two owners share the alternative mode, and one of them asks for more while the other waits for it

  const A := LkId(0, 1)
  const B := LkId(0, 2)

  function LosingRun(mode: Mode, f: Flags): seq<Op> {
    Beginning(AltMode(mode, f)) + [Convert(A, mode, f)] + [Cancel(B)]
  }

  function Beginning(alt: Mode): seq<Op> {
    [Request(A, alt, PLAIN), Request(B, alt, PLAIN), Convert(B, EX, PLAIN)]
  }

  function Asking(mode: Mode, f: Flags): Lock {
    Lock(A, AltMode(mode, f), mode, f, false, false)
  }

  function Other(alt: Mode): Lock {
    Lock(B, alt, EX, PLAIN, false, false)
  }

  function L1(alt: Mode): Res {
    Res([Held(A, alt, PLAIN, false)], [], [])
  }

  function L2(alt: Mode): Res {
    Res([Held(B, alt, PLAIN, false), Held(A, alt, PLAIN, false)], [], [])
  }

  function L3(alt: Mode): Res {
    Res([Held(A, alt, PLAIN, false)], [Other(alt)], [])
  }

  function L4(mode: Mode, f: Flags): Res {
    Res([], Enqueue([Other(AltMode(mode, f))], Asking(mode, f)), [])
  }

  function L5(mode: Mode, f: Flags): Res {
    Res([Held(B, AltMode(mode, f), PLAIN, false), Held(A, IV, f, true)], [], [])
  }

  /** For every conversion that is not of the kind that keeps its lock, a run in which its owner loses the lock
      without having asked for anything else. */
  lemma QueuedAlternativeLosesTheLock(mode: Mode, f: Flags)
    requires mode >= NL && !f.expedite && !KeepsLock(mode, f)
    ensures exists rs :: IsRun(rs, LosingRun(mode, f)) && !NobodyLost(rs[5])
  {
    Losing(mode, f);
    assert L5(mode, f).grant[1] in L5(mode, f).grant && Holds(L5(mode, f), L5(mode, f).grant[1]);
  }

  function LosingStates(mode: Mode, f: Flags): seq<Res> {
    var alt := AltMode(mode, f);
    [EmptyRes, L1(alt), L2(alt), L3(alt)] + [L4(mode, f)] + [L5(mode, f)]
  }

  lemma Losing(mode: Mode, f: Flags)
    requires mode >= NL && !f.expedite && !KeepsLock(mode, f)
    ensures IsRun(LosingStates(mode, f), LosingRun(mode, f))
  {
    var alt := AltMode(mode, f);
    Waiting(alt);
    AWaits(mode, f);
    BGivesUp(mode, f);
    var rs, ops := [EmptyRes, L1(alt), L2(alt), L3(alt)], Beginning(alt);
    RunGrows(rs, ops, Convert(A, mode, f), L4(mode, f));
    RunGrows(rs + [L4(mode, f)], ops + [Convert(A, mode, f)], Cancel(B), L5(mode, f));
  }

  lemma Waiting(alt: Mode)
    requires alt == CW || alt == PR
    ensures IsRun([EmptyRes, L1(alt), L2(alt), L3(alt)], Beginning(alt))
  {
    AJoins(alt);
    BJoins(alt);
    BWaits(alt);
  }

  lemma AJoins(alt: Mode)
    requires alt >= NL
    ensures Step(EmptyRes, Request(A, alt, PLAIN), L1(alt))
  {
  }

  lemma BJoins(alt: Mode)
    requires alt == CW || alt == PR
    ensures Step(L1(alt), Request(B, alt, PLAIN), L2(alt))
  {
    assert Grantable(L1(alt), Fresh(B, alt, PLAIN), true);
    assert DoRequest(L1(alt), Fresh(B, alt, PLAIN)) == Outcome(L2(alt), Ok, [], []);
  }

  lemma BWaits(alt: Mode)
    requires alt == CW || alt == PR
    ensures Step(L2(alt), Convert(B, EX, PLAIN), L3(alt))
  {
    var b := Other(alt);
    var r := Res([b, Held(A, alt, PLAIN, false)], [], []);
    assert r.grant[1] in r.grant && Conflicts(r.grant, b);
    assert Judge(r, b, true) == Verdict(false, b, false);
    assert Drop(r.grant, B) == [Held(A, alt, PLAIN, false)];
  }

  /** The two are in a deadlock, so the alternative is not tried; and the lock is queued all the same. */
  lemma AWaits(mode: Mode, f: Flags)
    requires mode >= NL && !f.expedite && !KeepsLock(mode, f)
    ensures Step(L3(AltMode(mode, f)), Convert(A, mode, f), L4(mode, f))
  {
    var a := Asking(mode, f);
    var r := Res([a], [Other(a.gr)], []);
    assert r.convert[0] in r.convert && Conflicts(r.convert, a);
    assert Deadlocks(r.convert, a, false);
    assert Judge(r, a, true) == Verdict(false, a, true);
    assert Drop(r.grant, A) == [];
  }

  lemma BGivesUp(mode: Mode, f: Flags)
    requires mode >= NL && !f.expedite && !KeepsLock(mode, f)
    ensures Step(L4(mode, f), Cancel(B), L5(mode, f))
  {
    var alt := AltMode(mode, f);
    var a, r := Asking(mode, f), L4(mode, f);
    var s := Res([Held(B, alt, PLAIN, false)], [a], []);
    assert r.convert == if f.headque then [a, Other(alt)] else [Other(alt), a];
    assert Has(r.convert, B) && r.convert[Index(r.convert, B)] == Other(alt) && Drop(r.convert, B) == [a];
    ALoses(mode, f);
    assert WaitPass(L5(mode, f), 0) == Settled(L5(mode, f), []);
    assert SettleAll(s) == Settled(L5(mode, f), [A, A]);
  }

  lemma ALoses(mode: Mode, f: Flags)
    requires mode >= NL && !f.expedite && !KeepsLock(mode, f)
    ensures SettleConvert(Res([Held(B, AltMode(mode, f), PLAIN, false)], [Asking(mode, f)], []), false)
      == Settled(L5(mode, f), [A, A])
  {
    var alt := AltMode(mode, f);
    var kept := Held(A, alt, f, true);
    var r := Res([Held(B, alt, PLAIN, false)], [Asking(mode, f)], []);
    var s := r.(convert := [kept]);
    GrantedInPlace(mode, f);
    GrantedInNoMode(s, kept);
    assert s.grant + [kept.(gr := IV)] == L5(mode, f).grant;
    assert SettleConvert(L5(mode, f), false) == Settled(L5(mode, f), []);
    assert [A] + ([A] + []) == [A, A];
  }

  lemma GrantedInPlace(mode: Mode, f: Flags)
    requires mode >= NL && !f.expedite && !KeepsLock(mode, f)
    ensures
      var alt := AltMode(mode, f);
      var r := Res([Held(B, alt, PLAIN, false)], [Asking(mode, f)], []);
      ConvertPass(r, 0) == Pass(r.(convert := [Held(A, alt, f, true)]), true, false, [A])
  {
    var alt := AltMode(mode, f);
    var a, kept := Asking(mode, f), Held(A, alt, f, true);
    var r := Res([Held(B, alt, PLAIN, false)], [a], []);
    var s := r.(convert := [kept]);
    assert r.grant[0] in r.grant && Conflicts(r.grant, a);
    assert Grantable(r, a.(rq := alt), false);
    assert r.convert[1..] == [] && !Deadlocks(r.convert, a, false);
    assert Judge(r, a, false) == Verdict(true, a.(rq := alt, altmode := true), false);
    assert AfterGrant(a.(rq := alt, altmode := true)) == kept && r.convert[0 := kept] == [kept];
    assert ConvertStep(r, 0) == (s, 1) && ConvertPass(s, 1) == Pass(s, false, false, []);
  }

  lemma GrantedInNoMode(s: Res, kept: Lock)
    requires kept.gr > NL && kept.rq == IV && |s.grant| == 1 && s.grant[0].rq == IV && s.convert == [kept]
    ensures
      var t := s.(grant := s.grant + [kept.(gr := IV)], convert := []);
      ConvertPass(s, 0) == Pass(t, true, false, [kept.id])
  {
    var t := s.(grant := s.grant + [kept.(gr := IV)], convert := []);
    assert Judge(s, kept, false) == Verdict(true, kept, false);
    assert s.convert[..0] + s.convert[1..] == [] && DropAt(s.convert, 0) == [];
    assert s.grant == [s.grant[0]] && s.grant[1..] == [];
    assert InsertOrdered(s.grant, AfterGrant(kept), IV) == s.grant + [kept.(gr := IV)];
    assert ConvertStep(s, 0) == (t, 0) && ConvertPass(t, 0) == Pass(t, false, false, []);
  }
}

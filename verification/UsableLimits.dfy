/** Why a lock does not count as usable while its unlock, a change between the two middle modes, or a conversion
    with CONVDEADLK is outstanding: legal runs in which its process copy is stronger than what the master left it. */
module UsableLimits {
  import opened Modes
  import opened Resource
  import opened Shape
  import opened Safety
  import opened Evolution
  import opened Operations
  import opened Runs
  import opened Wire
  import opened AltLimits

  /** Its owner has not been told to let go, and yet somebody else holds the lock in an incompatible mode. */
  ghost predicate Overtaken(c: Cluster) {
    && THEIRS in c.pcs && c.pcs[THEIRS].status == Some(Granted)
    && exists m :: HeldIn(c, OURS, m) && !Compat(c.pcs[THEIRS].gr, m)
  }

  // ----- a node holds PR

  const GET_PR: seq<Event> := [SendRequest(THEIRS, PR, PLAIN), MasterReceives(0), NodeReceives(0)]

  const A0 := Empty(0)
  const A1 := A0.(pcs := map[THEIRS := Pc(IV, PR, PLAIN, None, ForRequest)], up := [Msg(THEIRS, AskLock(PR, PLAIN))])
  const A2 := A1.(res := Res([Held(THEIRS, PR, PLAIN, false)], [], []), up := [],
    down := [Msg(THEIRS, LockReply(Ok, false))])
  const A3 := A2.(pcs := map[THEIRS := Pc(PR, IV, PLAIN, Some(Granted), Idle)], down := [])

  lemma GetsPr()
    ensures Wire.Step(A0, GET_PR[0], A1) && Wire.Step(A1, GET_PR[1], A2) && Wire.Step(A2, GET_PR[2], A3)
  {
    FirstRequest(THEIRS, PR);
  }

  lemma SixSteps(a: Cluster, b: Cluster, c: Cluster, d: Cluster, e: Cluster, f: Cluster, g: Cluster, es: seq<Event>)
    requires |es| == 6 && a == Empty(a.master)
    requires Wire.Step(a, es[0], b) && Wire.Step(b, es[1], c) && Wire.Step(c, es[2], d)
    requires Wire.Step(d, es[3], e) && Wire.Step(e, es[4], f) && Wire.Step(f, es[5], g)
    ensures Wire.IsRun([a, b, c, d, e, f, g], es)
  {
  }

  // ----- its unlock is on the way

  const UNLOCKS: seq<Event> := GET_PR + [SendUnlock(THEIRS), MasterReceives(0), OnMaster(Request(OURS, EX, PLAIN))]

  const U4 := A3.(pcs := map[THEIRS := Pc(PR, IV, PLAIN, Some(Granted), ForUnlock)], up := [Msg(THEIRS, AskUnlock)])
  const U5 := U4.(res := EmptyRes, up := [], down := [Msg(THEIRS, UnlockReply)])
  const U6 := U5.(res := Res([Held(OURS, EX, PLAIN, false)], [], []))

  lemma UnlocksAreNotUsable()
    ensures exists cs :: Wire.IsRun(cs, UNLOCKS) && Overtaken(cs[6])
  {
    UnlockRun();
    UnlockOvertaken();
  }

  lemma UnlockRun()
    ensures Wire.IsRun([A0, A1, A2, A3, U4, U5, U6], UNLOCKS)
  {
    GetsPr();
    SendsUnlock();
    MasterUnlocks();
    OursInstead();
    SixSteps(A0, A1, A2, A3, U4, U5, U6, UNLOCKS);
  }

  lemma UnlockOvertaken()
    ensures Overtaken(U6)
  {
    assert Holds(U6.res, Held(OURS, EX, PLAIN, false)) && HeldIn(U6, OURS, EX);
  }

  lemma SendsUnlock()
    ensures Wire.Step(A3, UNLOCKS[3], U4)
  {
  }

  lemma MasterUnlocks()
    ensures Wire.Step(U4, UNLOCKS[4], U5)
  {
    assert Drop([Held(THEIRS, PR, PLAIN, false)], THEIRS) == [];
    assert DoUnlock(U4.res, THEIRS) == Outcome(EmptyRes, Unlocked, [], []);
  }

  lemma OursInstead()
    ensures Wire.Step(U5, UNLOCKS[5], U6)
  {
    FirstRequest(OURS, EX);
  }

  // ----- its change to CW is on the way

  const CHANGES: seq<Event> := GET_PR + [SendConvert(THEIRS, CW, PLAIN), MasterReceives(0),
    OnMaster(Request(OURS, CW, PLAIN))]

  const M4 := A3.(pcs := map[THEIRS := Pc(PR, CW, PLAIN, Some(Granted), ForConvert)],
    up := [Msg(THEIRS, AskConvert(CW, PLAIN))])
  const M5 := M4.(res := Res([Held(THEIRS, CW, PLAIN, false)], [], []), up := [],
    down := [Msg(THEIRS, ConvertReply(Ok, false))])
  const M6 := M5.(res := Res([Held(OURS, CW, PLAIN, false), Held(THEIRS, CW, PLAIN, false)], [], []))

  lemma MiddleConversionsAreNotUsable()
    ensures exists cs :: Wire.IsRun(cs, CHANGES) && Overtaken(cs[6])
  {
    ChangeRun();
    ChangeOvertaken();
  }

  lemma ChangeRun()
    ensures Wire.IsRun([A0, A1, A2, A3, M4, M5, M6], CHANGES)
  {
    GetsPr();
    AskChange();
    ChangeStep();
    JoinStep();
    SixSteps(A0, A1, A2, A3, M4, M5, M6, CHANGES);
  }

  lemma ChangeOvertaken()
    ensures Overtaken(M6)
  {
    assert M6.res.grant[0] == Held(OURS, CW, PLAIN, false);
    assert Holds(M6.res, Held(OURS, CW, PLAIN, false)) && HeldIn(M6, OURS, CW);
  }

  lemma AskChange()
    ensures Wire.Step(A3, CHANGES[3], M4)
  {
  }

  lemma ChangeStep()
    ensures Wire.Step(M4, CHANGES[4], M5)
  {
    Changes();
  }

  lemma JoinStep()
    ensures Wire.Step(M5, CHANGES[5], M6)
  {
    SecondGranted();
  }

  lemma Changes()
    ensures DoConvert(A3.res, THEIRS, CW, PLAIN) == Outcome(Res([Held(THEIRS, CW, PLAIN, false)], [], []), Ok, [], [])
  {
    var l := SetConvert(Held(THEIRS, PR, PLAIN, false), CW, PLAIN);
    assert Grantable(Res([l], [], []), l, true);
    assert Drop([l], THEIRS) == [];
  }

  lemma SecondGranted()
    ensures DoRequest(M5.res, Fresh(OURS, CW, PLAIN)) == Outcome(M6.res, Ok, [], [])
  {
    assert Grantable(M5.res, Fresh(OURS, CW, PLAIN), true);
  }

  // ----- its conversion with CONVDEADLK is on the way

  const DEMOTING := PLAIN.(convdeadlk := true)

  const DEMOTES: seq<Event> := GET_PR + [
    OnMaster(Request(OURS, PR, PLAIN)),
    OnMaster(Runs.Convert(OURS, EX, PLAIN)),
    SendConvert(THEIRS, EX, DEMOTING),
    MasterReceives(0)]

  const OUR_EX := Lock(OURS, PR, EX, PLAIN, false, false)
  const THEIR_EX := Lock(THEIRS, NL, EX, DEMOTING, true, false)

  const D4 := A3.(res := Res([Held(OURS, PR, PLAIN, false), Held(THEIRS, PR, PLAIN, false)], [], []))
  const D5 := A3.(res := Res([Held(THEIRS, PR, PLAIN, false)], [OUR_EX], []))
  const D6 := D5.(pcs := map[THEIRS := Pc(PR, EX, DEMOTING, Some(Granted), ForConvert)],
    up := [Msg(THEIRS, AskConvert(EX, DEMOTING))])
  const D7 := D6.(res := Res([Held(OURS, EX, PLAIN, false)], [THEIR_EX], []), up := [],
    down := [Msg(THEIRS, ConvertReply(InProgress, true))])

  /** To break a deadlock the master takes PR away and grants EX to the other conversion. */
  lemma DemotionsAreNotUsable()
    ensures exists cs :: Wire.IsRun(cs, DEMOTES) && Overtaken(cs[7])
  {
    DemoteRun();
    DemoteOvertaken();
  }

  lemma DemoteRun()
    ensures Wire.IsRun([A0, A1, A2, A3, D4, D5, D6, D7], DEMOTES)
  {
    GetsPr();
    ReadStep();
    QueueStep();
    SendStep();
    LastDemoteStep();
    SevenSteps(A0, A1, A2, A3, D4, D5, D6, D7, DEMOTES);
  }

  lemma SevenSteps(a: Cluster, b: Cluster, c: Cluster, d: Cluster, e: Cluster, f: Cluster, g: Cluster, h: Cluster,
      es: seq<Event>)
    requires |es| == 7 && a == Empty(a.master)
    requires Wire.Step(a, es[0], b) && Wire.Step(b, es[1], c) && Wire.Step(c, es[2], d)
    requires Wire.Step(d, es[3], e) && Wire.Step(e, es[4], f) && Wire.Step(f, es[5], g) && Wire.Step(g, es[6], h)
    ensures Wire.IsRun([a, b, c, d, e, f, g, h], es)
  {
  }

  lemma DemoteOvertaken()
    ensures Overtaken(D7)
  {
    assert Holds(D7.res, Held(OURS, EX, PLAIN, false)) && HeldIn(D7, OURS, EX);
  }

  lemma ReadStep()
    ensures Wire.Step(A3, DEMOTES[3], D4)
  {
    BothRead();
  }

  lemma QueueStep()
    ensures Wire.Step(D4, DEMOTES[4], D5)
  {
    OursQueued();
  }

  lemma SendStep()
    ensures Wire.Step(D5, DEMOTES[5], D6)
  {
  }

  lemma BothRead()
    ensures DoRequest(A3.res, Fresh(OURS, PR, PLAIN)) == Outcome(D4.res, Ok, [], [])
  {
    assert Grantable(A3.res, Fresh(OURS, PR, PLAIN), true);
  }

  lemma OursQueued()
    ensures DoConvert(D4.res, OURS, EX, PLAIN) == Outcome(D5.res, InProgress, [], [])
  {
    var r := Res([OUR_EX, Held(THEIRS, PR, PLAIN, false)], [], []);
    assert r.grant[1] in r.grant;
    assert Conflicts(r.grant, OUR_EX);
    assert Judge(r, OUR_EX, true) == Verdict(false, OUR_EX, false);
    assert Drop(r.grant, OURS) == [Held(THEIRS, PR, PLAIN, false)];
  }

  lemma LastDemoteStep()
    ensures Wire.Step(D6, DEMOTES[6], D7)
  {
    TheirsAnswered();
    MasterServes(D6, Outcome(D7.res, InProgress, [OURS], []), Msg(THEIRS, ConvertReply(InProgress, true)));
  }

  lemma TheirsAnswered()
    ensures Handle(D6.res, THEIRS, AskConvert(EX, DEMOTING))
      == Answer(Outcome(D7.res, InProgress, [OURS], []), [Msg(THEIRS, ConvertReply(InProgress, true))])
  {
    TheirsDemoted();
  }

  lemma TheirsDemoted()
    ensures DoConvert(D6.res, THEIRS, EX, DEMOTING) == Outcome(D7.res, InProgress, [OURS], [])
  {
    var l := SetConvert(Held(THEIRS, PR, PLAIN, false), EX, DEMOTING);
    TheirsDemotedNow(l);
    assert Replace([Held(THEIRS, PR, PLAIN, false)], l) == [l];
  }

  lemma TheirsDemotedNow(l: Lock)
    requires l == Lock(THEIRS, PR, EX, DEMOTING, false, false)
    ensures ConvertNow(Res([l], [OUR_EX], []), l) == Outcome(D7.res, InProgress, [OURS], [])
  {
    DeadlockFound();
    TheirsQueued();
    assert Replace([l], THEIR_EX) == [THEIR_EX];
  }

  lemma DeadlockFound()
    ensures var l := Lock(THEIRS, PR, EX, DEMOTING, false, false);
      Judge(Res([l], [OUR_EX], []), l, true) == Verdict(false, THEIR_EX, false)
  {
    var l := Lock(THEIRS, PR, EX, DEMOTING, false, false);
    var r := Res([l], [OUR_EX], []);
    assert r.convert[0] in r.convert;
    assert Conflicts(r.convert, l);
  }

  /** The demotion lets the other conversion in, and then the lock is queued. */
  lemma TheirsQueued()
    ensures ConvertRest(Res([THEIR_EX], [OUR_EX], []), THEIR_EX) == Outcome(D7.res, InProgress, [OURS], [])
  {
    OursGranted();
    var s := Res([THEIR_EX, Held(OURS, EX, PLAIN, false)], [], []);
    assert s.grant[1] in s.grant && Conflicts(s.grant, THEIR_EX);
    assert Drop(s.grant, THEIRS) == [Held(OURS, EX, PLAIN, false)];
  }

  lemma OursGranted()
    ensures SettleConvert(Res([THEIR_EX], [OUR_EX], []), false)
      == Settled(Res([THEIR_EX, Held(OURS, EX, PLAIN, false)], [], []), [OURS])
  {
    var r := Res([THEIR_EX], [OUR_EX], []);
    var s := Res([THEIR_EX, Held(OURS, EX, PLAIN, false)], [], []);
    assert Grantable(r, OUR_EX, false);
    assert InsertOrdered([THEIR_EX], Held(OURS, EX, PLAIN, false), EX) == [THEIR_EX, Held(OURS, EX, PLAIN, false)];
    assert ConvertStep(r, 0) == (s, 0);
    assert ConvertPass(r, 0) == Pass(s, true, false, [OURS]);
    assert SettleConvert(s, false) == Settled(s, []);
  }
}

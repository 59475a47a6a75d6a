/** Exactly which cancels break mutual exclusion: the master may have demoted a conversion with CONVDEADLK while it
    was queued, and nobody tells the node, which goes back to a mode the master has taken away. */
module CancelLimits {
  import opened Modes
  import opened Resource
  import opened Shape
  import opened Safety
  import opened Evolution
  import opened Operations
  import opened Runs
  import opened Wire
  import opened WirePhases
  import opened AltLimits

  /** The cancel of a queued conversion to `mode` with flags `f`. */
  predicate CancelOf(mode: Mode, f: Flags, c: Cluster, e: Event) {
    && e.SendCancel? && e.id in c.pcs
    && c.pcs[e.id].status == Some(Converting) && c.pcs[e.id].rq == mode && c.pcs[e.id].flags == f
  }

  /** Conversions to `mode` with flags `f` can be cancelled safely, in every run, exactly if the flags do not allow
      the master to demote them, or the mode is so weak that it never does. */
  lemma CancelsAreSafeExactly(mode: Mode, f: Flags)
    requires mode >= NL && !f.expedite && !(f.convdeadlk && f.noqueue) && PlainConvert(mode, f)
    ensures AlwaysExclusive((c, e) => CancelOf(mode, f, c, e)) <==> !f.convdeadlk || mode <= CR
  {
    if !f.convdeadlk || mode <= CR {
      DisciplineIsEnough((c, e) => CancelOf(mode, f, c, e));
    } else {
      CancelBreaksExclusion(mode, f);
      var cs :| Unfolds(cs, CancelRun(mode, f)) && !MutualExclusion(cs[13])
        && OtherwiseDisciplined(cs, CancelRun(mode, f), (c, e) => CancelOf(mode, f, c, e));
    }
  }

  // ----- a reader asks for more while we hold a mode that is in its way, and then we ask for EX

  const BYSTANDER := LkId(0, 2)
  const PUSHY := PLAIN.(nodlckwt := true, noorder := true)

  /** A mode that stands beside CR, but not beside `mode`. */
  function Rival(mode: Mode): Mode {
    if mode == CW then PR else CW
  }

  function Reading(m: Mode): seq<Event> {
    [OnMaster(Request(OURS, m, PLAIN)), OnMaster(Request(BYSTANDER, NL, PLAIN)), SendRequest(THEIRS, CR, PLAIN),
     MasterReceives(0), NodeReceives(0)]
  }

  function MoreWanted(mode: Mode, f: Flags): seq<Event> {
    [SendConvert(THEIRS, mode, f), MasterReceives(0), NodeReceives(0)]
  }

  const PUSHING: seq<Event> := [OnMaster(Runs.Convert(OURS, EX, PUSHY)), OnMaster(Unlock(BYSTANDER))]
  const CANCELLING: seq<Event> := [SendCancel(THEIRS), MasterReceives(0), NodeReceives(0)]

  function CancelRun(mode: Mode, f: Flags): seq<Event> {
    Reading(Rival(mode)) + MoreWanted(mode, f) + PUSHING + CANCELLING
  }

  function S2(m: Mode): Cluster {
    Ours(m).(res := Res([Held(BYSTANDER, NL, PLAIN, false), Held(OURS, m, PLAIN, false)], [], []))
  }

  function S3(m: Mode): Cluster {
    S2(m).(pcs := map[THEIRS := Pc(IV, CR, PLAIN, None, ForRequest)], up := [Msg(THEIRS, AskLock(CR, PLAIN))])
  }

  function S4(m: Mode): Cluster {
    S3(m).(res := Res([Held(THEIRS, CR, PLAIN, false)] + S2(m).res.grant, [], []), up := [],
           down := [Msg(THEIRS, LockReply(Ok, false))])
  }

  function S5(m: Mode): Cluster {
    S4(m).(pcs := map[THEIRS := Pc(CR, IV, PLAIN, Some(Granted), Idle)], down := [])
  }

  function Theirs(mode: Mode, f: Flags): Lock {
    Lock(THEIRS, CR, mode, f, false, false)
  }

  function S6(mode: Mode, f: Flags): Cluster {
    S5(Rival(mode)).(pcs := map[THEIRS := Pc(CR, mode, f, Some(Granted), ForConvert)],
                     up := [Msg(THEIRS, AskConvert(mode, f))])
  }

  function S7(mode: Mode, f: Flags): Cluster {
    S6(mode, f).(res := S2(Rival(mode)).res.(convert := [Theirs(mode, f)]), up := [],
                 down := [Msg(THEIRS, ConvertReply(InProgress, false))])
  }

  function S8(mode: Mode, f: Flags): Cluster {
    S7(mode, f).(pcs := map[THEIRS := Pc(CR, mode, f, Some(Converting), Idle)], down := [])
  }

  function Pushing(mode: Mode): Lock {
    Lock(OURS, Rival(mode), EX, PUSHY, false, false)
  }

  function S9(mode: Mode, f: Flags): Cluster {
    S8(mode, f).(res := Res([Held(BYSTANDER, NL, PLAIN, false)], [Theirs(mode, f), Pushing(mode)], []))
  }

  function Demoted(mode: Mode, f: Flags): Lock {
    Theirs(mode, f).(gr := NL, demoted := true)
  }

  function S10(mode: Mode, f: Flags): Cluster {
    S9(mode, f).(res := Res([Held(OURS, EX, PUSHY, false)], [Demoted(mode, f)], []))
  }

  function S11(mode: Mode, f: Flags): Cluster {
    S10(mode, f).(pcs := map[THEIRS := Pc(CR, mode, f, Some(Converting), ForCancel)], up := [Msg(THEIRS, AskCancel)])
  }

  function S12(mode: Mode, f: Flags): Cluster {
    S11(mode, f).(res := Res([Demoted(mode, f).(rq := IV), Held(OURS, EX, PUSHY, false)], [], []), up := [],
                  down := [Msg(THEIRS, CancelReply(Cancelled))])
  }

  function S13(mode: Mode, f: Flags): Cluster {
    S12(mode, f).(pcs := map[THEIRS := Pc(CR, IV, f, Some(Granted), Idle)], down := [])
  }

  ghost predicate Demotable(mode: Mode, f: Flags) {
    ConvertArgs(CR, mode, f) && PlainConvert(mode, f) && f.convdeadlk && mode > CR
  }

  // ----- the run

  function ReadingStates(m: Mode): seq<Cluster> {
    [Empty(0), Ours(m), S2(m), S3(m), S4(m)] + [S5(m)]
  }

  lemma ReadingUnfolds(m: Mode)
    requires m == CW || m == PR
    ensures Unfolds(ReadingStates(m), Reading(m))
  {
    OursFirst(m);
    BystanderJoins(m);
    ReaderAsks(m);
    ReaderServed(m);
    ReaderTold(m);
    FourSteps(Empty(0), Ours(m), S2(m), S3(m), S4(m), Reading(m)[..4]);
    UnfoldsGrow([Empty(0), Ours(m), S2(m), S3(m), S4(m)], Reading(m)[..4], NodeReceives(0), S5(m));
    assert Reading(m)[..4] + [NodeReceives(0)] == Reading(m);
  }

  lemma UnfoldsGrow(cs: seq<Cluster>, es: seq<Event>, e: Event, d: Cluster)
    requires Unfolds(cs, es) && Unfold(cs[|es|], e, d)
    ensures Unfolds(cs + [d], es + [e])
  {
    var all, events := cs + [d], es + [e];
    forall i | 0 <= i < |events| ensures Unfold(all[i], events[i], all[i + 1]) {
      if i < |es| {
        assert Unfold(cs[i], es[i], cs[i + 1]);
      }
    }
  }

  lemma BystanderJoins(m: Mode)
    requires m == CW || m == PR
    ensures Unfold(Ours(m), OnMaster(Request(BYSTANDER, NL, PLAIN)), S2(m))
  {
    assert Grantable(Ours(m).res, Fresh(BYSTANDER, NL, PLAIN), true);
    assert DoRequest(Ours(m).res, Fresh(BYSTANDER, NL, PLAIN)) == Outcome(S2(m).res, Ok, [], []);
  }

  lemma ReaderAsks(m: Mode)
    ensures Unfold(S2(m), SendRequest(THEIRS, CR, PLAIN), S3(m))
  {
  }

  lemma ReaderServed(m: Mode)
    requires m == CW || m == PR
    ensures Unfold(S3(m), MasterReceives(0), S4(m))
  {
    var r := S2(m).res;
    assert Grantable(r, Fresh(THEIRS, CR, PLAIN), true);
    assert DoRequest(r, Fresh(THEIRS, CR, PLAIN)) == Outcome(S4(m).res, Ok, [], []);
    MasterServes(S3(m), Outcome(S4(m).res, Ok, [], []), Msg(THEIRS, LockReply(Ok, false)));
  }

  lemma ReaderTold(m: Mode)
    ensures Unfold(S4(m), NodeReceives(0), S5(m))
  {
  }

  function QueuedStates(mode: Mode, f: Flags): seq<Cluster> {
    ReadingStates(Rival(mode)) + [S6(mode, f), S7(mode, f), S8(mode, f)]
  }

  lemma QueuedUnfolds(mode: Mode, f: Flags)
    requires Demotable(mode, f)
    ensures Unfolds(QueuedStates(mode, f), Reading(Rival(mode)) + MoreWanted(mode, f))
  {
    ReadingUnfolds(Rival(mode));
    MoreAsked(mode, f);
    MoreQueued(mode, f);
    MoreTold(mode, f);
    ThreeMore(ReadingStates(Rival(mode)), S6(mode, f), S7(mode, f), S8(mode, f), Reading(Rival(mode)),
              SendConvert(THEIRS, mode, f), MasterReceives(0), NodeReceives(0));
  }

  lemma MoreAsked(mode: Mode, f: Flags)
    requires Demotable(mode, f)
    ensures Unfold(S5(Rival(mode)), SendConvert(THEIRS, mode, f), S6(mode, f))
  {
  }

  lemma MoreQueued(mode: Mode, f: Flags)
    requires Demotable(mode, f)
    ensures Unfold(S6(mode, f), MasterReceives(0), S7(mode, f))
  {
    MoreIsAnswered(mode, f);
    MasterServes(S6(mode, f), Outcome(S7(mode, f).res, InProgress, [], []),
                 Msg(THEIRS, ConvertReply(InProgress, false)));
  }

  lemma MoreIsAnswered(mode: Mode, f: Flags)
    requires Demotable(mode, f)
    ensures Handle(S6(mode, f).res, THEIRS, AskConvert(mode, f))
      == Answer(Outcome(S7(mode, f).res, InProgress, [], []), [Msg(THEIRS, ConvertReply(InProgress, false))])
  {
    MoreIsQueued(mode, f);
    ReaderIsGranted(mode, f);
    ConvertHandled(S6(mode, f).res, THEIRS, mode, f);
    MoreIsNotDemoted(mode, f);
  }

  lemma ReaderIsGranted(mode: Mode, f: Flags)
    ensures Lookup(S6(mode, f).res, THEIRS) == Some(Entry(Granted, Held(THEIRS, CR, PLAIN, false)))
  {
  }

  lemma MoreIsNotDemoted(mode: Mode, f: Flags)
    ensures !DemotedOf(S7(mode, f).res, THEIRS)
  {
  }

  lemma MoreIsQueued(mode: Mode, f: Flags)
    requires Demotable(mode, f)
    ensures DoConvert(S6(mode, f).res, THEIRS, mode, f) == Outcome(S7(mode, f).res, InProgress, [], [])
  {
    var l := Theirs(mode, f);
    var r := Res([l] + S2(Rival(mode)).res.grant, [], []);
    MoreWaits(mode, f);
    WantsMore(mode, f);
    StillQueued(S6(mode, f).res, Held(THEIRS, CR, PLAIN, false), mode, f, r.grant, ConvertNow(r, l));
  }

  lemma WantsMore(mode: Mode, f: Flags)
    ensures var q := S6(mode, f).res.grant;
      && Has(q, THEIRS) && q[Index(q, THEIRS)] == Held(THEIRS, CR, PLAIN, false)
      && Replace(q, Theirs(mode, f)) == [Theirs(mode, f)] + S2(Rival(mode)).res.grant
  {
  }

  lemma MoreWaits(mode: Mode, f: Flags)
    requires Demotable(mode, f)
    ensures var l := Theirs(mode, f);
      ConvertNow(Res([l] + S2(Rival(mode)).res.grant, [], []), l) == Outcome(S7(mode, f).res, InProgress, [], [])
  {
    var l := Theirs(mode, f);
    var r := Res([l] + S2(Rival(mode)).res.grant, [], []);
    MoreIsRefused(mode, f);
    assert Replace(r.grant, l) == r.grant;
    JustQueued(r, l);
    assert Drop(r.grant, THEIRS) == S2(Rival(mode)).res.grant;
  }

  /** A conversion that is neither granted nor demoted nor refused goes to the convert queue. */
  lemma JustQueued(r: Res, l: Lock)
    requires Live(r.convert) && Replace(r.grant, l) == r.grant
    requires Judge(r, l, true).lock == l && !Judge(r, l, true).granted
    requires !l.demoted && !l.flags.noqueue && (Judge(r, l, true).deadlk ==> l.flags.nodlckwt)
    ensures ConvertNow(r, l)
      == Outcome(r.(grant := Drop(r.grant, l.id), convert := Enqueue(r.convert, l)), InProgress, [], [])
  {
  }

  lemma StillQueued(r: Res, l0: Lock, mode: Mode, f: Flags, s: seq<Lock>, o: Outcome)
    requires Live(r.convert) && Has(r.grant, l0.id) && r.grant[Index(r.grant, l0.id)] == l0
    requires Replace(r.grant, SetConvert(l0, mode, f)) == s
    requires ConvertNow(r.(grant := s), SetConvert(l0, mode, f)) == o && o.rc == InProgress
    ensures DoConvert(r, l0.id, mode, f) == o
  {
  }

  lemma MoreIsRefused(mode: Mode, f: Flags)
    requires Demotable(mode, f)
    ensures var l := Theirs(mode, f);
      Judge(Res([l] + S2(Rival(mode)).res.grant, [], []), l, true) == Verdict(false, l, false)
  {
    var r := Res([Theirs(mode, f)] + S2(Rival(mode)).res.grant, [], []);
    assert r.grant[2] in r.grant && Conflicts(r.grant, Theirs(mode, f));
  }

  lemma MoreTold(mode: Mode, f: Flags)
    requires Demotable(mode, f)
    ensures Unfold(S7(mode, f), NodeReceives(0), S8(mode, f))
  {
  }

  function PushedStates(mode: Mode, f: Flags): seq<Cluster> {
    QueuedStates(mode, f) + [S9(mode, f)] + [S10(mode, f)]
  }

  lemma PushedUnfolds(mode: Mode, f: Flags)
    requires Demotable(mode, f)
    ensures Unfolds(PushedStates(mode, f), Reading(Rival(mode)) + MoreWanted(mode, f) + PUSHING)
  {
    var es := Reading(Rival(mode)) + MoreWanted(mode, f);
    QueuedUnfolds(mode, f);
    OursPushes(mode, f);
    DemotedSilently(mode, f);
    UnfoldsGrow(QueuedStates(mode, f), es, PUSHING[0], S9(mode, f));
    UnfoldsGrow(QueuedStates(mode, f) + [S9(mode, f)], es + [PUSHING[0]], PUSHING[1], S10(mode, f));
    assert es + [PUSHING[0]] + [PUSHING[1]] == es + PUSHING;
  }

  /** The two are in a deadlock now, and queued all the same. */
  lemma OursPushes(mode: Mode, f: Flags)
    requires Demotable(mode, f)
    ensures Unfold(S8(mode, f), PUSHING[0], S9(mode, f))
  {
    OursIsQueued(mode, f);
    MasterActs(S8(mode, f), Runs.Convert(OURS, EX, PUSHY), Outcome(S9(mode, f).res, InProgress, [], []));
  }

  lemma OursIsQueued(mode: Mode, f: Flags)
    requires Demotable(mode, f)
    ensures DoConvert(S8(mode, f).res, OURS, EX, PUSHY) == Outcome(S9(mode, f).res, InProgress, [], [])
  {
    var o := Pushing(mode);
    OursWaits(mode, f);
    var r := Res([Held(BYSTANDER, NL, PLAIN, false), o], [Theirs(mode, f)], []);
    assert Replace(S8(mode, f).res.grant, o) == r.grant;
    StillQueued(S8(mode, f).res, Held(OURS, Rival(mode), PLAIN, false), EX, PUSHY, r.grant, ConvertNow(r, o));
  }

  lemma OursWaits(mode: Mode, f: Flags)
    requires Demotable(mode, f)
    ensures var o := Pushing(mode);
      ConvertNow(Res([Held(BYSTANDER, NL, PLAIN, false), o], [Theirs(mode, f)], []), o)
      == Outcome(S9(mode, f).res, InProgress, [], [])
  {
    var o := Pushing(mode);
    var r := Res([Held(BYSTANDER, NL, PLAIN, false), o], [Theirs(mode, f)], []);
    OursIsRefused(r, Theirs(mode, f), o);
    assert Replace(r.grant, o) == r.grant;
    JustQueued(r, o);
    assert Drop(r.grant, OURS) == [Held(BYSTANDER, NL, PLAIN, false)];
  }

  lemma OursIsRefused(r: Res, l: Lock, o: Lock)
    requires r.convert == [l] && l.id != o.id && l.gr == CR && o.rq == EX && o.flags == PUSHY
    requires o.gr >= NL && !Compat(o.gr, l.rq)
    ensures Judge(r, o, true) == Verdict(false, o, true)
  {
    assert r.convert[0] in r.convert && Conflicts(r.convert, o);
    assert Deadlocks(r.convert, o, false);
  }

  /** An unlock makes the master look at the queues: it demotes one and grants the other. */
  lemma DemotedSilently(mode: Mode, f: Flags)
    requires Demotable(mode, f)
    ensures Unfold(S9(mode, f), PUSHING[1], S10(mode, f))
  {
    BystanderGone(mode, f);
    MasterActs(S9(mode, f), Unlock(BYSTANDER), Outcome(S10(mode, f).res, Unlocked, [], [OURS]));
  }

  /** The master serves one of its own locks, and has nobody to tell. */
  lemma MasterActs(c: Cluster, op: Op, o: Outcome)
    requires Live(c.res.convert) && Possible(c, OnMaster(op)) && Apply(c.res, op) == o
    requires Notices(c.master, o.res, o.before) == [] && Notices(c.master, o.res, o.after) == []
    ensures Unfold(c, OnMaster(op), c.(res := o.res))
  {
    assert c.down + Sent(c.master, Answer(o, [])) == c.down;
  }

  lemma BystanderGone(mode: Mode, f: Flags)
    requires Demotable(mode, f)
    ensures DoUnlock(S9(mode, f).res, BYSTANDER) == Outcome(S10(mode, f).res, Unlocked, [], [OURS])
  {
    var r := Res([], [Theirs(mode, f), Pushing(mode)], []);
    assert Drop(S9(mode, f).res.grant, BYSTANDER) == [];
    FirstWalk(mode, f);
    SecondWalk(mode, f);
    assert WaitPass(S10(mode, f).res, 0) == Settled(S10(mode, f).res, []);
    assert SettleAll(r) == Settled(S10(mode, f).res, [OURS]);
  }

  lemma FirstWalk(mode: Mode, f: Flags)
    requires Demotable(mode, f)
    ensures ConvertPass(Res([], [Theirs(mode, f), Pushing(mode)], []), 0)
      == Pass(S10(mode, f).res, true, true, [OURS])
  {
    var l, d, o := Theirs(mode, f), Demoted(mode, f), Pushing(mode);
    var r, s, t := Res([], [l, o], []), Res([], [d, o], []), S10(mode, f).res;
    assert r.convert[1] in r.convert && Conflicts(r.convert, l);
    assert r.convert[1..] == [o] && Deadlocks(r.convert, l, false);
    assert Judge(r, l, false) == Verdict(false, d, false) && r.convert[0 := d] == s.convert;
    assert ConvertStep(r, 0) == (s, 1);
    assert Judge(s, o, false) == Verdict(true, o, false);
    assert s.convert[..1] + s.convert[2..] == [d];
    assert ConvertStep(s, 1) == (t, 1) && ConvertPass(t, 1) == Pass(t, false, false, []);
    assert ConvertPass(s, 1) == Pass(t, true, false, [OURS]);
  }

  lemma SecondWalk(mode: Mode, f: Flags)
    requires Demotable(mode, f)
    ensures SettleConvert(S10(mode, f).res, false) == Settled(S10(mode, f).res, [])
  {
    var d, t := Demoted(mode, f), S10(mode, f).res;
    assert t.grant[0] in t.grant && Conflicts(t.grant, d);
    assert t.convert[1..] == [] && !Deadlocks(t.convert, d, false);
    assert Judge(t, d, false) == Verdict(false, d, false) && t.convert[0 := d] == t.convert;
    assert ConvertStep(t, 0) == (t, 1) && ConvertPass(t, 1) == Pass(t, false, false, []);
  }

  function CancelStates(mode: Mode, f: Flags): (cs: seq<Cluster>)
    ensures |cs| == 14 && cs[8] == S8(mode, f) && cs[10] == S10(mode, f) && cs[13] == S13(mode, f)
  {
    PushedStates(mode, f) + [S11(mode, f), S12(mode, f), S13(mode, f)]
  }

  lemma CancelUnfolds(mode: Mode, f: Flags)
    requires Demotable(mode, f)
    ensures Unfolds(CancelStates(mode, f), CancelRun(mode, f))
  {
    PushedUnfolds(mode, f);
    CancelSent(mode, f);
    CancelServed(mode, f);
    CancelTold(mode, f);
    ThreeMore(PushedStates(mode, f), S11(mode, f), S12(mode, f), S13(mode, f),
              Reading(Rival(mode)) + MoreWanted(mode, f) + PUSHING,
              SendCancel(THEIRS), MasterReceives(0), NodeReceives(0));
  }

  lemma CancelSent(mode: Mode, f: Flags)
    ensures Unfold(S10(mode, f), SendCancel(THEIRS), S11(mode, f))
  {
  }

  lemma CancelServed(mode: Mode, f: Flags)
    requires Demotable(mode, f)
    ensures Unfold(S11(mode, f), MasterReceives(0), S12(mode, f))
  {
    var d, r := Demoted(mode, f), S11(mode, f).res;
    assert Drop(r.convert, THEIRS) == [];
    assert InsertOrdered(r.grant, d.(rq := IV), NL) == S12(mode, f).res.grant;
    assert SettleAll(S12(mode, f).res) == Settled(S12(mode, f).res, []);
    assert DoCancel(r, THEIRS) == Outcome(S12(mode, f).res, Cancelled, [], []);
    MasterServes(S11(mode, f), Outcome(S12(mode, f).res, Cancelled, [], []), Msg(THEIRS, CancelReply(Cancelled)));
  }

  lemma CancelTold(mode: Mode, f: Flags)
    ensures Unfold(S12(mode, f), NodeReceives(0), S13(mode, f))
  {
  }

  /** The node goes back to CR, and we hold EX. */
  lemma CancelBreaksExclusion(mode: Mode, f: Flags)
    requires Demotable(mode, f)
    ensures exists cs :: Unfolds(cs, CancelRun(mode, f)) && !MutualExclusion(cs[13])
              && OtherwiseDisciplined(cs, CancelRun(mode, f), (c, e) => CancelOf(mode, f, c, e))
  {
    var cs := CancelStates(mode, f);
    CancelUnfolds(mode, f);
    CancelEndsApart(mode, f);
    OnlyTheCancel(mode, f);
  }

  lemma CancelEndsApart(mode: Mode, f: Flags)
    ensures !MutualExclusion(S13(mode, f))
  {
    var c := S13(mode, f);
    assert c.res.grant[1] == Held(OURS, EX, PUSHY, false) && Holds(c.res, Held(OURS, EX, PUSHY, false));
    assert HeldIn(c, OURS, EX) && HeldIn(c, THEIRS, CR);
  }

  lemma OnlyTheCancel(mode: Mode, f: Flags)
    requires Demotable(mode, f)
    ensures OtherwiseDisciplined(CancelStates(mode, f), CancelRun(mode, f), (c, e) => CancelOf(mode, f, c, e))
  {
    var cs, es := CancelStates(mode, f), CancelRun(mode, f);
    forall i | 0 <= i < |es| ensures Disciplined(cs[i], es[i]) || CancelOf(mode, f, cs[i], es[i]) {
      if i == 10 {
        assert es[i] == SendCancel(THEIRS);
      } else {
        assert !es[i].SendCancel? && (es[i].SendConvert? ==> es[i] == SendConvert(THEIRS, mode, f));
      }
    }
  }
}

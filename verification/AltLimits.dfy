/** Exactly which requests and conversions with alternative modes break mutual exclusion.  All others are
    covered by the theorem in WireSafety. */
module AltLimits {
  import opened Modes
  import opened Resource
  import opened Shape
  import opened Safety
  import opened Evolution
  import opened Operations
  import opened Runs
  import opened Wire
  import opened WireSafety

  ghost predicate Unfold(c: Cluster, e: Event, d: Cluster) {
    Live(c.res.convert) && Possible(c, e) && d == Next(c, e)
  }

  /** A run of events the argument checks allow, without regard to the alternative modes. */
  ghost predicate Unfolds(cs: seq<Cluster>, es: seq<Event>) {
    && |cs| == |es| + 1 && cs[0] == Empty(cs[0].master)
    && forall i :: 0 <= i < |es| ==> Unfold(cs[i], es[i], cs[i + 1])
  }

  /** Whatever else happens, alternative modes and cancels are used as they should be. */
  ghost predicate OtherwiseDisciplined(cs: seq<Cluster>, es: seq<Event>, special: (Cluster, Event) -> bool)
    requires |cs| > |es|
  {
    forall i :: 0 <= i < |es| ==> Disciplined(cs[i], es[i]) || special(cs[i], es[i])
  }

  ghost predicate AlwaysExclusive(special: (Cluster, Event) -> bool) {
    forall cs, es :: Unfolds(cs, es) && OtherwiseDisciplined(cs, es, special) ==> MutualExclusion(cs[|es|])
  }

  lemma DisciplineIsEnough(special: (Cluster, Event) -> bool)
    requires forall c, e :: special(c, e) ==> Disciplined(c, e)
    ensures AlwaysExclusive(special)
  {
    forall cs, es | Unfolds(cs, es) && OtherwiseDisciplined(cs, es, special) ensures MutualExclusion(cs[|es|]) {
      forall i | 0 <= i < |es| ensures Wire.Step(cs[i], es[i], cs[i + 1]) {
        assert Unfold(cs[i], es[i], cs[i + 1]);
      }
      ClusterWideMutualExclusion(cs, es, |es|);
    }
  }

  const OURS := LkId(0, 1)
  const THEIRS := LkId(1, 1)

  lemma FirstRequest(id: LkId, m: Mode)
    requires m >= NL
    ensures DoRequest(EmptyRes, Fresh(id, m, PLAIN)) == Outcome(Res([Held(id, m, PLAIN, false)], [], []), Ok, [], [])
  {
  }

  /** One of the master's own locks, in mode `m`. */
  function Ours(m: Mode): Cluster {
    Cluster(0, Res([Held(OURS, m, PLAIN, false)], [], []), map[], [], [])
  }

  lemma OursFirst(m: Mode)
    requires m >= NL
    ensures Unfold(Empty(0), OnMaster(Request(OURS, m, PLAIN)), Ours(m))
  {
    FirstRequest(OURS, m);
  }

  lemma FourSteps(a: Cluster, b: Cluster, c: Cluster, d: Cluster, e: Cluster, es: seq<Event>)
    requires |es| == 4 && a == Empty(a.master)
    requires Unfold(a, es[0], b) && Unfold(b, es[1], c) && Unfold(c, es[2], d) && Unfold(d, es[3], e)
    ensures Unfolds([a, b, c, d, e], es)
  {
  }

  lemma ThreeMore(cs: seq<Cluster>, a: Cluster, b: Cluster, c: Cluster, es: seq<Event>, x: Event, y: Event, z: Event)
    requires Unfolds(cs, es) && Unfold(cs[|es|], x, a) && Unfold(a, y, b) && Unfold(b, z, c)
    ensures Unfolds(cs + [a, b, c], es + [x, y, z])
  {
    var all, events := cs + [a, b, c], es + [x, y, z];
    forall i | 0 <= i < |events| ensures Unfold(all[i], events[i], all[i + 1]) {
      if i < |es| {
        assert Unfold(cs[i], es[i], cs[i + 1]);
      }
    }
  }

  /** The only message under way is served, and answered with one message. */
  lemma MasterServes(c: Cluster, o: Outcome, m: Msg<ToNode>)
    requires |c.up| == 1 && c.down == [] && Live(c.res.convert)
    requires Handle(c.res, c.up[0].id, c.up[0].body) == Answer(o, [m])
    requires Notices(c.master, o.res, o.before) == [] && Notices(c.master, o.res, o.after) == []
    ensures Unfold(c, MasterReceives(0), c.(res := o.res, up := [], down := [m]))
  {
    assert Wire.Take(c.up, 0) == [];
    assert Sent(c.master, Answer(o, [m])) == [m];
  }

  // ----- requests

  /** The two ends compute the same alternative mode for a request exactly when a request for PR does not
      name both. */
  lemma AlternativesAgreeExactly(p: Pc)
    ensures (AltMode(p.rq, p.flags) != NL ==> MungeAlt(p, true).rq == AltMode(p.rq, p.flags))
            <==> AltArgs(p.rq, p.flags)
  {
  }

  predicate RequestOf(mode: Mode, f: Flags, e: Event) {
    e.SendRequest? && e.mode == mode && e.flags == f
  }

  /** Requests in `mode` with flags `f` are safe, in every run, exactly if they do not ask for PR and name both
      alternatives. */
  lemma RequestsAreSafeExactly(mode: Mode, f: Flags)
    requires RequestArgs(mode, f)
    ensures AlwaysExclusive((_, e) => RequestOf(mode, f, e)) <==> AltArgs(mode, f)
  {
    if AltArgs(mode, f) {
      DisciplineIsEnough((_, e) => RequestOf(mode, f, e));
    } else {
      AltRequestBreaksExclusion(f);
      var cs :| Unfolds(cs, RequestRun(f)) && !MutualExclusion(cs[4]);
      assert OtherwiseDisciplined(cs, RequestRun(f), (_, e) => RequestOf(PR, f, e));
    }
  }

  function RequestRun(f: Flags): seq<Event> {
    [OnMaster(Request(OURS, CW, PLAIN)), SendRequest(THEIRS, PR, f), MasterReceives(0), NodeReceives(0)]
  }

  function R2(f: Flags): Cluster {
    Ours(CW).(pcs := map[THEIRS := Pc(IV, PR, f, None, ForRequest)], up := [Msg(THEIRS, AskLock(PR, f))])
  }

  function R3(f: Flags): Cluster {
    R2(f).(res := Res([Held(THEIRS, CW, f, true), Held(OURS, CW, PLAIN, false)], [], []), up := [],
           down := [Msg(THEIRS, LockReply(Ok, true))])
  }

  function R4(f: Flags): Cluster {
    R3(f).(pcs := map[THEIRS := Pc(PR, IV, f, Some(Granted), Idle)], down := [])
  }

  /** The master grants CW, the node believes it has PR, and another owner holds CW. */
  lemma AltRequestBreaksExclusion(f: Flags)
    requires RequestArgs(PR, f) && !AltArgs(PR, f)
    ensures exists cs :: Unfolds(cs, RequestRun(f)) && !MutualExclusion(cs[4])
  {
    OursFirst(CW);
    SecondRequested(f);
    SecondServed(f);
    SecondTold(f);
    FourSteps(Empty(0), Ours(CW), R2(f), R3(f), R4(f), RequestRun(f));
    RequestEndsApart(f);
  }

  lemma RequestEndsApart(f: Flags)
    ensures !MutualExclusion(R4(f))
  {
    var ours := Held(OURS, CW, PLAIN, false);
    assert R4(f).res.grant[1] == ours && Holds(R4(f).res, ours);
    assert HeldIn(R4(f), OURS, CW) && HeldIn(R4(f), THEIRS, PR);
  }

  lemma SecondRequested(f: Flags)
    requires RequestArgs(PR, f)
    ensures Unfold(Ours(CW), SendRequest(THEIRS, PR, f), R2(f))
  {
  }

  lemma SecondServed(f: Flags)
    requires RequestArgs(PR, f) && !AltArgs(PR, f)
    ensures Unfold(R2(f), MasterReceives(0), R3(f))
  {
    SecondGetsCw(f);
  }

  lemma SecondTold(f: Flags)
    requires !AltArgs(PR, f)
    ensures Unfold(R3(f), NodeReceives(0), R4(f))
  {
  }

  lemma SecondGetsCw(f: Flags)
    requires RequestArgs(PR, f) && !AltArgs(PR, f)
    ensures DoRequest(Ours(CW).res, Fresh(THEIRS, PR, f)) == Outcome(R3(f).res, Ok, [], [])
    ensures AltOf(R3(f).res, THEIRS)
  {
    var r := Ours(CW).res;
    var l := Fresh(THEIRS, PR, f);
    assert r.grant[0] in r.grant;
    assert Conflicts(r.grant, l);
    assert Grantable(r, l.(rq := CW), true);
    assert Judge(r, l, true) == Verdict(true, l.(rq := CW, altmode := true), false);
  }

  // ----- conversions

  predicate ConversionTo(mode: Mode, f: Flags, e: Event) {
    e.SendConvert? && e.mode == mode && e.flags == f
  }

  /** Conversions to `mode` with flags `f` are safe, in every run, exactly if the flags name no alternative or
      the mode asked for is weaker than CW: the reply does not make the node adopt the alternative. */
  lemma ConversionsAreSafeExactly(mode: Mode, f: Flags)
    requires mode >= NL && !f.expedite && !(f.convdeadlk && f.noqueue)
    ensures AlwaysExclusive((_, e) => ConversionTo(mode, f, e)) <==> AltMode(mode, f) == NL || mode < CW
  {
    if PlainConvert(mode, f) {
      DisciplineIsEnough((_, e) => ConversionTo(mode, f, e));
    } else {
      AltConversionBreaksExclusion(mode, f);
      var cs :| Unfolds(cs, ConversionRun(mode, f)) && !MutualExclusion(cs[7]);
      assert OtherwiseDisciplined(cs, ConversionRun(mode, f), (_, e) => ConversionTo(mode, f, e));
    }
  }

  function ConversionRun(mode: Mode, f: Flags): seq<Event> {
    NullRun(AltMode(mode, f)) + [SendConvert(THEIRS, mode, f), MasterReceives(0), NodeReceives(0)]
  }

  function NullRun(alt: Mode): seq<Event> {
    [OnMaster(Request(OURS, alt, PLAIN)), SendRequest(THEIRS, NL, PLAIN), MasterReceives(0), NodeReceives(0)]
  }

  function C2(alt: Mode): Cluster {
    Ours(alt).(pcs := map[THEIRS := Pc(IV, NL, PLAIN, None, ForRequest)], up := [Msg(THEIRS, AskLock(NL, PLAIN))])
  }

  function C3(alt: Mode): Cluster {
    C2(alt).(res := Res([Held(THEIRS, NL, PLAIN, false), Held(OURS, alt, PLAIN, false)], [], []), up := [],
             down := [Msg(THEIRS, LockReply(Ok, false))])
  }

  function C4(alt: Mode): Cluster {
    C3(alt).(pcs := map[THEIRS := Pc(NL, IV, PLAIN, Some(Granted), Idle)], down := [])
  }

  function C5(mode: Mode, f: Flags): Cluster {
    C4(AltMode(mode, f)).(pcs := map[THEIRS := Pc(NL, mode, f, Some(Granted), ForConvert)],
                          up := [Msg(THEIRS, AskConvert(mode, f))])
  }

  function C6(mode: Mode, f: Flags): Cluster {
    var alt := AltMode(mode, f);
    C5(mode, f).(res := Res([Held(THEIRS, alt, f, true), Held(OURS, alt, PLAIN, false)], [], []), up := [],
                 down := [Msg(THEIRS, ConvertReply(Ok, false))])
  }

  function C7(mode: Mode, f: Flags): Cluster {
    C6(mode, f).(pcs := map[THEIRS := Pc(mode, IV, f, Some(Granted), Idle)], down := [])
  }

  /** The master grants the alternative; the node believes it has what it asked for, which is incompatible with
      another owner's lock in the alternative mode. */
  lemma AltConversionBreaksExclusion(mode: Mode, f: Flags)
    requires ConvertArgs(NL, mode, f) && !PlainConvert(mode, f)
    ensures exists cs :: Unfolds(cs, ConversionRun(mode, f)) && !MutualExclusion(cs[7])
  {
    ConversionUnfolds(mode, f);
    ConversionEndsApart(mode, f);
  }

  function NullStates(alt: Mode): seq<Cluster> {
    [Empty(0), Ours(alt), C2(alt), C3(alt), C4(alt)]
  }

  lemma NullUnfolds(alt: Mode)
    requires alt > NL
    ensures Unfolds(NullStates(alt), NullRun(alt))
  {
    OursFirst(alt);
    NullRequested(alt);
    NullServed(alt);
    NullTold(alt);
    FourSteps(Empty(0), Ours(alt), C2(alt), C3(alt), C4(alt), NullRun(alt));
  }

  function ConversionStates(mode: Mode, f: Flags): (cs: seq<Cluster>)
    ensures |cs| == 8 && cs[7] == C7(mode, f)
  {
    NullStates(AltMode(mode, f)) + [C5(mode, f), C6(mode, f), C7(mode, f)]
  }

  lemma ConversionUnfolds(mode: Mode, f: Flags)
    requires ConvertArgs(NL, mode, f) && !PlainConvert(mode, f)
    ensures Unfolds(ConversionStates(mode, f), ConversionRun(mode, f))
  {
    var alt := AltMode(mode, f);
    NullUnfolds(alt);
    AlternativeAsked(mode, f);
    AlternativeServed(mode, f);
    AlternativeTold(mode, f);
    ThreeMore(NullStates(alt), C5(mode, f), C6(mode, f), C7(mode, f), NullRun(alt),
              SendConvert(THEIRS, mode, f), MasterReceives(0), NodeReceives(0));
  }

  lemma ConversionEndsApart(mode: Mode, f: Flags)
    requires !PlainConvert(mode, f)
    ensures !MutualExclusion(C7(mode, f))
  {
    var alt := AltMode(mode, f);
    var c := C7(mode, f);
    assert c.res.grant[1] == Held(OURS, alt, PLAIN, false) && Holds(c.res, Held(OURS, alt, PLAIN, false));
    assert HeldIn(c, OURS, alt) && HeldIn(c, THEIRS, mode);
  }

  lemma NullRequested(alt: Mode)
    ensures Unfold(Ours(alt), SendRequest(THEIRS, NL, PLAIN), C2(alt))
  {
  }

  lemma NullServed(alt: Mode)
    requires alt > NL
    ensures Unfold(C2(alt), MasterReceives(0), C3(alt))
  {
    var r, l := Ours(alt).res, Fresh(THEIRS, NL, PLAIN);
    assert Grantable(r, l, true);
    assert DoRequest(r, l) == Outcome(C3(alt).res, Ok, [], []);
  }

  lemma NullTold(alt: Mode)
    ensures Unfold(C3(alt), NodeReceives(0), C4(alt))
  {
  }

  lemma AlternativeAsked(mode: Mode, f: Flags)
    requires ConvertArgs(NL, mode, f) && mode > NL
    ensures Unfold(C4(AltMode(mode, f)), SendConvert(THEIRS, mode, f), C5(mode, f))
  {
  }

  lemma AlternativeServed(mode: Mode, f: Flags)
    requires ConvertArgs(NL, mode, f) && !PlainConvert(mode, f)
    ensures Unfold(C5(mode, f), MasterReceives(0), C6(mode, f))
  {
    AlternativeAnswered(mode, f);
    MasterServes(C5(mode, f), Outcome(C6(mode, f).res, Ok, [], []), Msg(THEIRS, ConvertReply(Ok, false)));
  }

  lemma AlternativeTold(mode: Mode, f: Flags)
    requires mode > NL
    ensures Unfold(C6(mode, f), NodeReceives(0), C7(mode, f))
  {
  }

  lemma AlternativeAnswered(mode: Mode, f: Flags)
    requires ConvertArgs(NL, mode, f) && !PlainConvert(mode, f)
    ensures Handle(C5(mode, f).res, THEIRS, AskConvert(mode, f))
      == Answer(Outcome(C6(mode, f).res, Ok, [], []), [Msg(THEIRS, ConvertReply(Ok, false))])
  {
    AlternativeGranted(mode, f);
  }

  lemma AlternativeGranted(mode: Mode, f: Flags)
    requires ConvertArgs(NL, mode, f) && !PlainConvert(mode, f)
    ensures DoConvert(C5(mode, f).res, THEIRS, mode, f) == Outcome(C6(mode, f).res, Ok, [], [])
  {
    var alt := AltMode(mode, f);
    var l := SetConvert(Held(THEIRS, NL, PLAIN, false), mode, f);
    var r := Res([l, Held(OURS, alt, PLAIN, false)], [], []);
    TakesAlternative(r, l);
    assert Replace(C5(mode, f).res.grant, l) == r.grant;
    assert Drop(r.grant, THEIRS) == [Held(OURS, alt, PLAIN, false)];
  }

  lemma TakesAlternative(r: Res, l: Lock)
    requires !PlainConvert(l.rq, l.flags) && !l.flags.expedite && l.id == THEIRS && l.gr == NL
    requires r == Res([l, Held(OURS, AltMode(l.rq, l.flags), PLAIN, false)], [], [])
    ensures Judge(r, l, true) == Verdict(true, l.(rq := AltMode(l.rq, l.flags), altmode := true), false)
  {
    assert r.grant[1] in r.grant;
    assert Conflicts(r.grant, l);
    assert Grantable(r, l.(rq := AltMode(l.rq, l.flags)), true);
  }
}

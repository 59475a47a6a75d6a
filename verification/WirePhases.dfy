/** One lock as seen from both ends: its process copy, its messages in the two directions, and its master
    copy.  Together they are always in one of the phases below. */
module WirePhases {
  import opened Modes
  import opened Resource
  import opened Shape
  import opened Safety
  import opened Evolution
  import opened Operations
  import opened Wire

  /** A series of down-conversions on their way, from the master's mode to the node's. */
  predicate Chain(from: Mode, up: seq<ToMaster>, to: Mode)
    decreases |up|
  {
    if up == [] then from == to
    else up[0].AskConvert? && DownConversion(from, up[0].mode) && ConvertArgs(from, up[0].mode, up[0].flags)
         && PlainConvert(up[0].mode, up[0].flags) && Chain(up[0].mode, up[1..], to)
  }

  predicate GrantedIn(mc: Option<Entry>, m: Mode) {
    mc.Some? && mc.value.status == Granted && mc.value.lock.gr == m && m >= NL
  }

  predicate IsGranted(mc: Option<Entry>) {
    mc.Some? && mc.value.status == Granted && mc.value.lock.gr >= NL
  }

  predicate McWaiting(p: Pc, mc: Option<Entry>) {
    && mc.Some? && mc.value.status == Waiting
    && mc.value.lock.rq == p.rq && mc.value.lock.flags == p.flags && !mc.value.lock.altmode
  }

  predicate McConverting(p: Pc, mc: Option<Entry>) {
    && mc.Some? && mc.value.status == Converting
    && mc.value.lock.rq == p.rq && mc.value.lock.flags == p.flags && !mc.value.lock.altmode
    && PlainConvert(p.rq, p.flags)
    && (mc.value.lock.gr == p.gr || (p.flags.convdeadlk && mc.value.lock.gr == NL))
  }

  /** The mode a waiting process copy will take when it is told it was granted. */
  function Promised(p: Pc, alt: bool): Mode {
    MungeAlt(p, alt).rq
  }

  /** A request on the node's side: no mode yet, a proper mode asked for. */
  predicate Asking(p: Pc) {
    p.gr == IV && p.rq >= NL && AltArgs(p.rq, p.flags)
  }

  /** A conversion that needs an answer. */
  predicate Changing(p: Pc) {
    p.gr >= NL && p.rq >= NL && !DownConversion(p.gr, p.rq) && PlainConvert(p.rq, p.flags)
  }

  /** A granted lock asks for nothing, unless the last thing it asked for was refused because it must not wait. */
  predicate AsksNothing(p: Pc) {
    p.rq == IV || p.flags.noqueue
  }

  predicate IdlePhase(p: Pc, up: seq<ToMaster>, down: seq<ToNode>, mc: Option<Entry>) {
    match p.status
    case None => false
    case Some(Waiting) =>
      up == [] && Asking(p)
      && ((down == [] && McWaiting(p, mc))
          || (|down| == 1 && down[0].GrantNotice? && GrantedIn(mc, Promised(p, down[0].alt))))
    case Some(Converting) =>
      up == [] && Changing(p) && p.gr != p.rq
      && ((down == [] && McConverting(p, mc)) || (down == [GrantNotice(false)] && GrantedIn(mc, p.rq)))
    case Some(Granted) =>
      p.gr >= NL && AsksNothing(p) && down == [] && IsGranted(mc) && Chain(mc.value.lock.gr, up, p.gr)
  }

  predicate RequestPhase(p: Pc, up: seq<ToMaster>, down: seq<ToNode>, mc: Option<Entry>) {
    && Asking(p) && p.status == None
    && if down == [] then
         up == [AskLock(p.rq, p.flags)] && mc == None && RequestArgs(p.rq, p.flags)
       else
         && up == [] && down[0].LockReply?
         && match down[0].rc
            case Ok => |down| == 1 && GrantedIn(mc, Promised(p, down[0].alt))
            case Again => |down| == 1 && mc == None
            case InProgress =>
              !down[0].alt
              && ((|down| == 1 && McWaiting(p, mc))
                  || (|down| == 2 && down[1].GrantNotice? && GrantedIn(mc, Promised(p, down[1].alt))))
            case _ => false
  }

  predicate ConvertPhase(p: Pc, up: seq<ToMaster>, down: seq<ToNode>, mc: Option<Entry>) {
    && Changing(p) && p.status == Some(Granted)
    && if down == [] then
         && up != [] && up[|up| - 1] == AskConvert(p.rq, p.flags) && ConvertArgs(p.gr, p.rq, p.flags)
         && IsGranted(mc) && Chain(mc.value.lock.gr, up[..|up| - 1], p.gr)
       else
         && up == [] && down[0].ConvertReply?
         && match down[0].rc
            case Ok => |down| == 1 && GrantedIn(mc, p.rq)
            case InProgress =>
              p.gr != p.rq && (down[0].demoted ==> p.flags.convdeadlk)
              && ((|down| == 1 && McConverting(p, mc) && (down[0].demoted ==> mc.value.lock.gr == NL))
                  || (|down| == 2 && down[1] == GrantNotice(false) && GrantedIn(mc, p.rq)))
            case _ => Refusal(down[0].rc, p.flags) && |down| == 1 && GrantedIn(mc, p.gr)
  }

  predicate UnlockPhase(p: Pc, up: seq<ToMaster>, down: seq<ToNode>, mc: Option<Entry>) {
    if up != [] then up[|up| - 1] == AskUnlock && IdlePhase(p, up[..|up| - 1], down, mc)
    else mc == None && (down == [UnlockReply] || (|down| == 2 && down[0].GrantNotice? && down[1] == UnlockReply))
  }

  /** A cancel crosses the grants of the lock it is for: the node may be told that it was granted before or after
      the cancel has been sent, and before, but not after, the reply. */
  predicate CancelPhase(p: Pc, up: seq<ToMaster>, down: seq<ToNode>, mc: Option<Entry>) {
    if up != [] then up == [AskCancel] && Revertible(p) && IdlePhase(p, [], down, mc)
    else
      && down != [] && down[|down| - 1].CancelReply?
      && match down[|down| - 1].rc
         case Nothing => IsGranted(mc) && IdlePhase(p, [], down[..|down| - 1], mc)
         case Cancelled =>
           |down| == 1 && ((p.status == Some(Waiting) && mc == None)
                           || (p.status == Some(Converting) && Changing(p) && GrantedIn(mc, p.gr)))
         case _ => false
  }

  /** The phase of one lock. */
  predicate InPhase(pc: Option<Pc>, up: seq<ToMaster>, down: seq<ToNode>, mc: Option<Entry>) {
    match pc
    case None => up == [] && down == [] && mc == None
    case Some(p) =>
      match p.wait
      case Idle => IdlePhase(p, up, down, mc)
      case ForRequest => RequestPhase(p, up, down, mc)
      case ForConvert => ConvertPhase(p, up, down, mc)
      case ForUnlock => UnlockPhase(p, up, down, mc)
      case ForCancel => CancelPhase(p, up, down, mc)
  }

  // ----- the master's queues move on

  function NoticeOf(mc: Option<Entry>, granted: bool): seq<ToNode> {
    if granted then [GrantNotice(mc.Some? && mc.value.lock.altmode)] else []
  }

  /** A lock that is granted, demoted or left alone while another one is served stays in phase. */
  lemma OthersInPhase(pc: Option<Pc>, up: seq<ToMaster>, down: seq<ToNode>, a: Option<Entry>, b: Option<Entry>,
      granted: bool)
    requires InPhase(pc, up, down, a) && Change(a, b, granted)
    requires granted ==> b.value.lock.gr >= NL
    ensures InPhase(pc, up, down + NoticeOf(b, granted), b)
  {
    if !granted {
      assert down + NoticeOf(b, granted) == down;
    } else {
      QueuedPhase(pc, up, down, a);
      assert GrantOf(a.value.lock, b.value.lock);
    }
  }

  /** If the master has the lock queued, the node is waiting and has not been told anything yet. */
  lemma QueuedPhase(pc: Option<Pc>, up: seq<ToMaster>, down: seq<ToNode>, mc: Option<Entry>)
    requires InPhase(pc, up, down, mc) && mc.Some? && mc.value.status != Granted
    ensures pc.Some?
    ensures McWaiting(pc.value, mc) || McConverting(pc.value, mc)
    ensures down == [] || (|down| == 1 && pc.value.wait != ForUnlock)
  {
  }

  // ----- the node receives

  lemma ReceiveInPhase(p: Pc, up: seq<ToMaster>, down: seq<ToNode>, mc: Option<Entry>)
    requires InPhase(Some(p), up, down, mc) && down != []
    ensures InPhase(Receive(p, down[0]), up, down[1..], mc)
  {
    match p.wait
    case Idle => IdleReceives(p, up, down, mc);
    case ForRequest => RequestReceives(p, up, down, mc);
    case ForConvert => ConvertReceives(p, up, down, mc);
    case ForUnlock => UnlockReceives(p, up, down, mc);
    case ForCancel => CancelReceives(p, up, down, mc);
  }

  lemma IdleReceives(p: Pc, up: seq<ToMaster>, down: seq<ToNode>, mc: Option<Entry>)
    requires IdlePhase(p, up, down, mc) && down != []
    ensures Receive(p, down[0]).Some?
    ensures IdlePhase(Receive(p, down[0]).value, up, down[1..], mc)
    ensures Receive(p, down[0]).value.wait == p.wait
  {
    assert |down| == 1 && up == [];
    assert down[1..] == [];
  }

  lemma RequestReceives(p: Pc, up: seq<ToMaster>, down: seq<ToNode>, mc: Option<Entry>)
    requires p.wait == ForRequest && RequestPhase(p, up, down, mc) && down != []
    ensures InPhase(Receive(p, down[0]), up, down[1..], mc)
  {
    assert |down| == 1 ==> down[1..] == [];
    assert |down| == 2 ==> down[1..] == [down[1]];
  }

  lemma ConvertReceives(p: Pc, up: seq<ToMaster>, down: seq<ToNode>, mc: Option<Entry>)
    requires p.wait == ForConvert && ConvertPhase(p, up, down, mc) && down != []
    ensures InPhase(Receive(p, down[0]), up, down[1..], mc)
  {
    assert |down| == 1 ==> down[1..] == [];
    assert |down| == 2 ==> down[1..] == [down[1]];
  }

  lemma UnlockReceives(p: Pc, up: seq<ToMaster>, down: seq<ToNode>, mc: Option<Entry>)
    requires p.wait == ForUnlock && UnlockPhase(p, up, down, mc) && down != []
    ensures InPhase(Receive(p, down[0]), up, down[1..], mc)
  {
    if up != [] {
      IdleReceives(p, up[..|up| - 1], down, mc);
    } else {
      assert |down| == 1 ==> down[1..] == [];
      assert |down| == 2 ==> down[1..] == [down[1]];
    }
  }

  lemma CancelReceives(p: Pc, up: seq<ToMaster>, down: seq<ToNode>, mc: Option<Entry>)
    requires p.wait == ForCancel && CancelPhase(p, up, down, mc) && down != []
    ensures InPhase(Receive(p, down[0]), up, down[1..], mc)
  {
    var n := |down| - 1;
    if up != [] {
      IdleReceives(p, [], down, mc);
    } else if n > 0 {
      assert down[..n][0] == down[0] && down[1..][..n - 1] == down[..n][1..];
      IdleReceives(p, [], down[..n], mc);
    } else {
      assert down[..0] == [] && down[1..] == [];
    }
  }

  // ----- the node sends

  lemma {:induction false} ChainGrows(from: Mode, up: seq<ToMaster>, to: Mode, mode: Mode, f: Flags)
    requires Chain(from, up, to) && DownConversion(to, mode) && ConvertArgs(to, mode, f) && PlainConvert(mode, f)
    ensures Chain(from, up + [AskConvert(mode, f)], mode)
  {
    if up != [] {
      ChainGrows(up[0].mode, up[1..], to, mode, f);
      assert (up + [AskConvert(mode, f)])[1..] == up[1..] + [AskConvert(mode, f)];
    }
  }

  lemma SendConvertInPhase(p: Pc, up: seq<ToMaster>, down: seq<ToNode>, mc: Option<Entry>, mode: Mode, f: Flags)
    requires InPhase(Some(p), up, down, mc) && p.status == Some(Granted) && p.wait == Idle
    requires ConvertArgs(p.gr, mode, f) && PlainConvert(mode, f)
    ensures InPhase(Some(Converted(p, mode, f)), up + [AskConvert(mode, f)], down, mc)
  {
    if DownConversion(p.gr, mode) {
      ChainGrows(mc.value.lock.gr, up, p.gr, mode, f);
    } else {
      assert (up + [AskConvert(mode, f)])[..|up|] == up;
    }
  }

  lemma SendUnlockInPhase(p: Pc, up: seq<ToMaster>, down: seq<ToNode>, mc: Option<Entry>)
    requires InPhase(Some(p), up, down, mc) && p.wait == Idle
    ensures InPhase(Some(p.(wait := ForUnlock)), up + [AskUnlock], down, mc)
  {
    assert (up + [AskUnlock])[..|up|] == up;
  }

  lemma SendCancelInPhase(p: Pc, up: seq<ToMaster>, down: seq<ToNode>, mc: Option<Entry>)
    requires InPhase(Some(p), up, down, mc) && p.wait == Idle && Revertible(p)
    requires p.status == Some(Waiting) || p.status == Some(Converting)
    ensures InPhase(Some(p.(wait := ForCancel)), up + [AskCancel], down, mc)
  {
    assert up == [] && [] + [AskCancel] == [AskCancel];
  }

  // ----- the master receives

  lemma MasterRequestInPhase(r: Res, id: LkId, pc: Option<Pc>, up: seq<ToMaster>, down: seq<ToNode>)
    requires Sound(r) && InPhase(pc, up, down, Lookup(r, id)) && up != [] && up[0].AskLock?
    ensures var a := Handle(r, id, up[0]);
      && Sound(a.outcome.res) && OthersEvolve(r, a.outcome.res, id, a.outcome.before + a.outcome.after)
      && |a.reply| == 1 && a.reply[0].id == id
      && InPhase(pc, up[1..], down + [a.reply[0].body], Lookup(a.outcome.res, id))
  {
    var p := pc.value;
    assert pc.Some? && p.wait == ForRequest && down == [] && up[1..] == [] by {
      OnlyRequest(pc, up, down, Lookup(r, id)); }
    var l := Fresh(id, p.rq, p.flags);
    RequestEvolves(r, l);
    var o := DoRequest(r, l);
    assert down + [LockReply(o.rc, AltOf(o.res, id))] == [LockReply(o.rc, AltOf(o.res, id))];
    assert o.before + o.after == [];
    EntryHasMode(o.res, id);
  }

  lemma OnlyRequest(pc: Option<Pc>, up: seq<ToMaster>, down: seq<ToNode>, mc: Option<Entry>)
    requires InPhase(pc, up, down, mc) && up != [] && up[0].AskLock?
    ensures pc.Some? && pc.value.wait == ForRequest && down == [] && up[1..] == []
  {
  }

  lemma EntryHasMode(r: Res, id: LkId)
    requires Sound(r)
    ensures Lookup(r, id).Some? && Lookup(r, id).value.status == Granted ==> Lookup(r, id).value.lock.gr >= NL
  {
    if Lookup(r, id).Some? {
      assert On(r, Lookup(r, id).value.status, Lookup(r, id).value.lock);
    }
  }

  lemma OnlyConvert(pc: Option<Pc>, up: seq<ToMaster>, down: seq<ToNode>, mc: Option<Entry>)
    requires InPhase(pc, up, down, mc) && up != [] && up[0].AskConvert?
    ensures pc.Some? && down == [] && IsGranted(mc)
    ensures ConvertArgs(mc.value.lock.gr, up[0].mode, up[0].flags) && PlainConvert(up[0].mode, up[0].flags)
    ensures DownConversion(mc.value.lock.gr, up[0].mode) ==>
      forall b :: GrantedIn(b, up[0].mode) ==> InPhase(pc, up[1..], [], b)
    ensures !DownConversion(mc.value.lock.gr, up[0].mode) ==>
      up == [AskConvert(pc.value.rq, pc.value.flags)] && pc.value.wait == ForConvert && pc.value.gr == mc.value.lock.gr
  {
    var p := pc.value;
    if p.wait != Idle {
      var n := |up| - 1;
      if n > 0 {
        assert up[..n][0] == up[0];
        assert up[1..][..n - 1] == up[..n][1..];
      } else {
        assert up[..n] == [];
      }
    }
  }

  lemma MasterConvertInPhase(r: Res, id: LkId, pc: Option<Pc>, up: seq<ToMaster>, down: seq<ToNode>)
    requires Sound(r) && Stuck(r) && InPhase(pc, up, down, Lookup(r, id)) && up != [] && up[0].AskConvert?
    ensures var a := Handle(r, id, up[0]);
      && Sound(a.outcome.res) && OthersEvolve(r, a.outcome.res, id, a.outcome.before + a.outcome.after)
      && (a.reply == [] || (|a.reply| == 1 && a.reply[0].id == id))
      && InPhase(pc, up[1..], down + (if a.reply == [] then [] else [a.reply[0].body]), Lookup(a.outcome.res, id))
  {
    var mc := Lookup(r, id);
    OnlyConvert(pc, up, down, mc);
    ConvertEvolves(r, id, up[0].mode, up[0].flags);
    var o := DoConvert(r, id, up[0].mode, up[0].flags);
    EntryHasMode(o.res, id);
    if DownConversion(mc.value.lock.gr, up[0].mode) {
      DownConversionIsImmediate(r, id, up[0].mode, up[0].flags);
      GrantedSilently(mc.value.lock.gr, up[0].mode, up[0].flags, Lookup(o.res, id));
    } else {
      assert up[1..] == [];
      ConvertAnswered(pc.value, mc.value.lock.gr, o.rc, Lookup(o.res, id));
    }
    ConvertHandled(r, id, up[0].mode, up[0].flags);
  }

  /** The reply to a conversion, and the one case in which there is none. */
  lemma ConvertHandled(r: Res, id: LkId, mode: Mode, f: Flags)
    requires Live(r.convert) && IsGranted(Lookup(r, id))
    ensures var a := Handle(r, id, AskConvert(mode, f)); var o := DoConvert(r, id, mode, f);
      && a.outcome == o
      && a.reply == if DownConversion(Lookup(r, id).value.lock.gr, mode) then []
                    else [Msg(id, ConvertReply(o.rc, DemotedOf(o.res, id)))]
  {
  }

  lemma GrantedSilently(gr: Mode, mode: Mode, f: Flags, mc: Option<Entry>)
    requires ConversionLeft(gr, mode, f, Ok, mc) && PlainConvert(mode, f)
    requires mc.Some? && mc.value.status == Granted ==> mc.value.lock.gr >= NL
    ensures GrantedIn(mc, mode)
  {
  }

  lemma ConvertAnswered(p: Pc, gr: Mode, rc: Rc, mc: Option<Entry>)
    requires p.wait == ForConvert && Changing(p) && p.status == Some(Granted) && p.gr == gr
    requires ConversionLeft(gr, p.rq, p.flags, rc, mc)
    requires mc.Some? && mc.value.status == Granted ==> mc.value.lock.gr >= NL
    ensures ConvertPhase(p, [], [ConvertReply(rc, mc.Some? && mc.value.lock.demoted)], mc)
  {
  }

  lemma MasterUnlockInPhase(r: Res, id: LkId, pc: Option<Pc>, up: seq<ToMaster>, down: seq<ToNode>)
    requires Sound(r) && InPhase(pc, up, down, Lookup(r, id)) && up != [] && up[0].AskUnlock?
    ensures var a := Handle(r, id, up[0]);
      && Sound(a.outcome.res) && OthersEvolve(r, a.outcome.res, id, a.outcome.before + a.outcome.after)
      && a.reply == [Msg(id, UnlockReply)]
      && InPhase(pc, up[1..], down + [UnlockReply], Lookup(a.outcome.res, id))
  {
    OnlyUnlock(pc, up, down, Lookup(r, id));
    UnlockEvolves(r, id);
    var o := DoUnlock(r, id);
    assert o.before + o.after == o.after;
  }

  lemma OnlyUnlock(pc: Option<Pc>, up: seq<ToMaster>, down: seq<ToNode>, mc: Option<Entry>)
    requires InPhase(pc, up, down, mc) && up != [] && up[0].AskUnlock?
    ensures pc.Some? && mc.Some? && InPhase(pc, up[1..], down + [UnlockReply], None)
  {
    if |up| == 1 {
      assert up[1..] == [] && up[..0] == [];
    }
  }

  /** A lock that is still queued is given up; one that has been granted in the meantime is left alone. */
  lemma MasterCancelInPhase(r: Res, id: LkId, pc: Option<Pc>, up: seq<ToMaster>, down: seq<ToNode>)
    requires Sound(r) && InPhase(pc, up, down, Lookup(r, id)) && up != [] && up[0].AskCancel?
    ensures var a := Handle(r, id, up[0]);
      && Sound(a.outcome.res) && OthersEvolve(r, a.outcome.res, id, a.outcome.before + a.outcome.after)
      && a.reply == [Msg(id, CancelReply(a.outcome.rc))]
      && InPhase(pc, up[1..], down + [CancelReply(a.outcome.rc)], Lookup(a.outcome.res, id))
  {
    OnlyCancel(pc, up, down, Lookup(r, id));
    CancelEvolves(r, id);
    var o := DoCancel(r, id);
    assert o.before + o.after == o.after;
    EntryHasMode(r, id);
    CancelAnswered(pc.value, down, Lookup(r, id).value, Lookup(o.res, id), o.rc);
  }

  lemma OnlyCancel(pc: Option<Pc>, up: seq<ToMaster>, down: seq<ToNode>, mc: Option<Entry>)
    requires InPhase(pc, up, down, mc) && up != [] && up[0].AskCancel?
    ensures pc.Some? && mc.Some? && up[1..] == []
    ensures pc.value.wait == ForCancel && Revertible(pc.value) && IdlePhase(pc.value, [], down, mc)
  {
  }

  lemma CancelAnswered(p: Pc, down: seq<ToNode>, a: Entry, mc: Option<Entry>, rc: Rc)
    requires p.wait == ForCancel && Revertible(p) && IdlePhase(p, [], down, Some(a))
    requires a.status == Granted ==> a.lock.gr >= NL
    requires rc == if a.status == Granted then Nothing else Cancelled
    requires mc == if a.status == Waiting then None else Some(Entry(Granted, a.lock.(rq := IV)))
    ensures CancelPhase(p, [], down + [CancelReply(rc)], mc)
  {
    assert (down + [CancelReply(rc)])[..|down|] == down;
  }
}

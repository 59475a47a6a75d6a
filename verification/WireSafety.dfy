/** Cluster-wide mutual exclusion, over every run of requests, conversions, unlocks, cancels and their messages. */
module WireSafety {
  import opened Modes
  import opened Resource
  import opened Shape
  import opened Safety
  import opened Evolution
  import opened Operations
  import opened KeptLocks
  import opened Runs
  import opened Wire
  import opened WirePhases

  // ----- the messages of one lock

  function For<T>(q: seq<Msg<T>>, id: LkId): seq<T> {
    if q == [] then [] else (if q[0].id == id then [q[0].body] else []) + For(q[1..], id)
  }

  lemma {:induction false} ForConcat<T>(p: seq<Msg<T>>, q: seq<Msg<T>>, id: LkId)
    ensures For(p + q, id) == For(p, id) + For(q, id)
  {
    if p == [] {
      assert p + q == q;
    } else {
      assert (p + q)[1..] == p[1..] + q;
      ForConcat(p[1..], q, id);
    }
  }

  lemma {:induction false} ForNobody<T>(q: seq<Msg<T>>, id: LkId)
    requires forall j :: 0 <= j < |q| ==> q[j].id != id
    ensures For(q, id) == []
  {
    if q != [] {
      ForNobody(q[1..], id);
    }
  }

  /** Delivering the oldest message of a node takes the first message of one lock, and none of another. */
  lemma ForTake<T>(q: seq<Msg<T>>, i: nat, id: LkId)
    requires Oldest(q, i)
    ensures id == q[i].id ==> For(q, id) == [q[i].body] + For(Take(q, i), id)
    ensures id != q[i].id ==> For(Take(q, i), id) == For(q, id)
  {
    assert q == q[..i] + ([q[i]] + q[i + 1..]);
    ForConcat(q[..i], [q[i]] + q[i + 1..], id);
    ForConcat([q[i]], q[i + 1..], id);
    ForConcat(q[..i], q[i + 1..], id);
    assert For([q[i]], id) == if q[i].id == id then [q[i].body] else [];
    if id == q[i].id {
      ForNobody(q[..i], id);
    }
  }

  lemma {:induction false} ForNotices(master: nat, r: Res, grants: seq<LkId>, id: LkId)
    requires Distinct(grants)
    ensures For(Notices(master, r, grants), id)
            == if id.node == master then [] else NoticeOf(Lookup(r, id), id in grants)
  {
    if grants != [] {
      var first := if grants[0].node == master then [] else [Msg(grants[0], GrantNotice(AltOf(r, grants[0])))];
      ForNotices(master, r, grants[1..], id);
      ForConcat(first, Notices(master, r, grants[1..]), id);
      assert id in grants <==> id == grants[0] || id in grants[1..];
      assert first != [] ==> first[1..] == [];
    }
  }

  /** What the answer to one lock puts in the channel of each lock. */
  lemma ForSent(master: nat, a: Answer, id: LkId, x: LkId)
    requires id !in a.outcome.before + a.outcome.after && Distinct(a.outcome.before + a.outcome.after)
    requires |a.reply| <= 1 && (a.reply != [] ==> a.reply[0].id == id)
    ensures x == id ==> For(Sent(master, a), x) == if a.reply == [] then [] else [a.reply[0].body]
    ensures x != id && x.node == master ==> For(Sent(master, a), x) == []
    ensures x != id && x.node != master ==>
      For(Sent(master, a), x) == NoticeOf(Lookup(a.outcome.res, x), x in a.outcome.before + a.outcome.after)
  {
    var r, b, f := a.outcome.res, a.outcome.before, a.outcome.after;
    DistinctParts(b, f, x);
    ForNotices(master, r, b, x);
    ForNotices(master, r, f, x);
    ForConcat(Notices(master, r, b) + a.reply, Notices(master, r, f), x);
    ForConcat(Notices(master, r, b), a.reply, x);
    ForReply(a.reply, x);
  }

  lemma DistinctParts(b: seq<LkId>, f: seq<LkId>, x: LkId)
    requires Distinct(b + f)
    ensures Distinct(b) && Distinct(f) && !(x in b && x in f)
    ensures x in b + f <==> x in b || x in f
  {
    var g := b + f;
    assert forall i :: 0 <= i < |b| ==> b[i] == g[i];
    assert forall i :: 0 <= i < |f| ==> f[i] == g[|b| + i];
  }

  lemma ForReply(reply: seq<Msg<ToNode>>, x: LkId)
    requires |reply| <= 1
    ensures For(reply, x) == if reply != [] && reply[0].id == x then [reply[0].body] else []
  {
    assert reply != [] ==> reply[1..] == [];
  }

  // ----- the invariant

  function PcOf(c: Cluster, id: LkId): Option<Pc> {
    if id in c.pcs then Some(c.pcs[id]) else None
  }

  ghost predicate LockInv(c: Cluster, id: LkId) {
    if id.node == c.master then id !in c.pcs && For(c.up, id) == [] && For(c.down, id) == []
    else InPhase(PcOf(c, id), For(c.up, id), For(c.down, id), Lookup(c.res, id))
  }

  ghost predicate Inv(c: Cluster) {
    Sound(c.res) && Stuck(c.res) && forall id :: LockInv(c, id)
  }

  lemma InvAtFirst(master: nat)
    ensures Inv(Empty(master))
  {
  }

  // ----- a node sends

  lemma SamePhase(c: Cluster, d: Cluster, x: LkId)
    requires LockInv(c, x) && d.master == c.master && PcOf(d, x) == PcOf(c, x)
    requires For(d.up, x) == For(c.up, x) && For(d.down, x) == For(c.down, x) && Lookup(d.res, x) == Lookup(c.res, x)
    ensures LockInv(d, x)
  {
  }

  function Sending(c: Cluster, id: LkId, p: Pc, m: ToMaster): Cluster {
    c.(pcs := c.pcs[id := p], up := c.up + [Msg(id, m)])
  }

  lemma ForMore(q: seq<Msg<ToMaster>>, id: LkId, m: ToMaster, x: LkId)
    ensures For(q + [Msg(id, m)], x) == if x == id then For(q, x) + [m] else For(q, x)
  {
    ForConcat(q, [Msg(id, m)], x);
    assert For([Msg(id, m)], x) == if x == id then [m] else [];
  }

  lemma NodeSends(c: Cluster, id: LkId, p: Pc, m: ToMaster)
    requires Inv(c) && id.node != c.master
    requires InPhase(Some(p), For(c.up, id) + [m], For(c.down, id), Lookup(c.res, id))
    ensures Inv(Sending(c, id, p, m))
  {
    var d := Sending(c, id, p, m);
    forall x ensures LockInv(d, x) {
      ForMore(c.up, id, m, x);
      assert LockInv(c, x);
      if x != id {
        SamePhase(c, d, x);
      }
    }
  }

  lemma RequestKeepsInv(c: Cluster, id: LkId, mode: Mode, f: Flags)
    requires Inv(c) && Enabled(c, SendRequest(id, mode, f))
    ensures Inv(Next(c, SendRequest(id, mode, f)))
  {
    assert LockInv(c, id);
    NothingYet(For(c.up, id), For(c.down, id), Lookup(c.res, id), mode, f);
    NodeSends(c, id, Pc(IV, mode, f, None, ForRequest), AskLock(mode, f));
  }

  lemma NothingYet(up: seq<ToMaster>, down: seq<ToNode>, mc: Option<Entry>, mode: Mode, f: Flags)
    requires InPhase(None, up, down, mc) && RequestArgs(mode, f) && AltArgs(mode, f)
    ensures InPhase(Some(Pc(IV, mode, f, None, ForRequest)), up + [AskLock(mode, f)], down, mc)
  {
    assert up + [AskLock(mode, f)] == [AskLock(mode, f)];
  }

  /** A node's own locks are not the master's. */
  lemma Remote(c: Cluster, id: LkId)
    requires Inv(c) && id in c.pcs
    ensures id.node != c.master && InPhase(Some(c.pcs[id]), For(c.up, id), For(c.down, id), Lookup(c.res, id))
  {
    assert LockInv(c, id);
  }

  lemma ConvertKeepsInv(c: Cluster, id: LkId, mode: Mode, f: Flags)
    requires Inv(c) && Enabled(c, SendConvert(id, mode, f))
    ensures Inv(Next(c, SendConvert(id, mode, f)))
  {
    Remote(c, id);
    SendConvertInPhase(c.pcs[id], For(c.up, id), For(c.down, id), Lookup(c.res, id), mode, f);
    NodeSends(c, id, Converted(c.pcs[id], mode, f), AskConvert(mode, f));
  }

  lemma UnlockKeepsInv(c: Cluster, id: LkId)
    requires Inv(c) && Enabled(c, SendUnlock(id))
    ensures Inv(Next(c, SendUnlock(id)))
  {
    Remote(c, id);
    SendUnlockInPhase(c.pcs[id], For(c.up, id), For(c.down, id), Lookup(c.res, id));
    NodeSends(c, id, c.pcs[id].(wait := ForUnlock), AskUnlock);
  }

  lemma CancelKeepsInv(c: Cluster, id: LkId)
    requires Inv(c) && Enabled(c, SendCancel(id))
    ensures Inv(Next(c, SendCancel(id)))
  {
    Remote(c, id);
    SendCancelInPhase(c.pcs[id], For(c.up, id), For(c.down, id), Lookup(c.res, id));
    NodeSends(c, id, c.pcs[id].(wait := ForCancel), AskCancel);
  }

  // ----- a node receives

  lemma NodeReceivesKeepsInv(c: Cluster, i: nat)
    requires Inv(c) && Enabled(c, NodeReceives(i))
    ensures Inv(Next(c, NodeReceives(i)))
    ensures c.down[i].id in c.pcs
  {
    var d := Next(c, NodeReceives(i));
    var id := c.down[i].id;
    ForTake(c.down, i, id);
    assert LockInv(c, id);
    var p := c.pcs[id];
    ReceiveInPhase(p, For(c.up, id), For(c.down, id), Lookup(c.res, id));
    forall x ensures LockInv(d, x) {
      assert LockInv(c, x);
      ForTake(c.down, i, x);
      assert x == id ==> For(c.down, id)[1..] == For(d.down, id);
      assert PcOf(d, x) == if x == id then Receive(p, c.down[i].body) else PcOf(c, x);
    }
  }

  // ----- the master acts

  /** Whatever the master does for one lock, the others stay in phase. */
  lemma OthersKeepInv(c: Cluster, d: Cluster, id: LkId, a: Answer, x: LkId)
    requires Inv(c) && Sound(d.res) && d.res == a.outcome.res && d.master == c.master && d.pcs == c.pcs
    requires OthersEvolve(c.res, d.res, id, a.outcome.before + a.outcome.after)
    requires |a.reply| <= 1 && (a.reply != [] ==> a.reply[0].id == id)
    requires d.down == c.down + Sent(c.master, a) && For(d.up, x) == For(c.up, x) && x != id
    ensures LockInv(d, x)
  {
    var granted := x in a.outcome.before + a.outcome.after;
    assert LockInv(c, x);
    assert Change(Lookup(c.res, x), Lookup(d.res, x), granted);
    ForConcat(c.down, Sent(c.master, a), x);
    ForSent(c.master, a, id, x);
    EntryHasMode(d.res, x);
    if x.node != c.master {
      OthersInPhase(PcOf(c, x), For(c.up, x), For(c.down, x), Lookup(c.res, x), Lookup(d.res, x), granted);
    }
  }

  lemma HandleInPhase(r: Res, id: LkId, pc: Option<Pc>, up: seq<ToMaster>, down: seq<ToNode>)
    requires Sound(r) && Stuck(r) && InPhase(pc, up, down, Lookup(r, id)) && up != []
    ensures var a := Handle(r, id, up[0]);
      && Sound(a.outcome.res) && OthersEvolve(r, a.outcome.res, id, a.outcome.before + a.outcome.after)
      && (a.reply == [] || (|a.reply| == 1 && a.reply[0].id == id))
      && InPhase(pc, up[1..], down + (if a.reply == [] then [] else [a.reply[0].body]), Lookup(a.outcome.res, id))
  {
    match up[0]
    case AskLock(_, _) => MasterRequestInPhase(r, id, pc, up, down);
    case AskConvert(_, _) => MasterConvertInPhase(r, id, pc, up, down);
    case AskUnlock => MasterUnlockInPhase(r, id, pc, up, down);
    case AskCancel => MasterCancelInPhase(r, id, pc, up, down);
  }

  lemma HandleStuck(r: Res, id: LkId, pc: Option<Pc>, up: seq<ToMaster>, down: seq<ToNode>)
    requires Sound(r) && Stuck(r) && InPhase(pc, up, down, Lookup(r, id)) && up != []
    ensures Stuck(Handle(r, id, up[0]).outcome.res)
  {
    match up[0]
    case AskLock(mode, f) => RequestStuck(r, Fresh(id, mode, f));
    case AskConvert(mode, f) =>
      OnlyConvert(pc, up, down, Lookup(r, id));
      ConversionStuck(r, id, mode, f);
    case AskUnlock => UnlockStuck(r, id);
    case AskCancel => CancelStuck(r, id);
  }

  lemma ConversionStuck(r: Res, id: LkId, mode: Mode, f: Flags)
    requires Sound(r) && Stuck(r) && IsGranted(Lookup(r, id))
    requires ConvertArgs(Lookup(r, id).value.lock.gr, mode, f) && PlainConvert(mode, f)
    ensures Stuck(Handle(r, id, AskConvert(mode, f)).outcome.res)
  {
    ConvertStuck(r, id, mode, f);
  }

  lemma MasterReceivesKeepsInv(c: Cluster, i: nat)
    requires Inv(c) && Enabled(c, MasterReceives(i))
    ensures Inv(Next(c, MasterReceives(i)))
  {
    var d := Next(c, MasterReceives(i));
    var id := c.up[i].id;
    var a := Handle(c.res, id, c.up[i].body);
    ForTake(c.up, i, id);
    assert LockInv(c, id);
    assert For(c.up, id)[1..] == For(d.up, id);
    HandleInPhase(c.res, id, PcOf(c, id), For(c.up, id), For(c.down, id));
    HandleStuck(c.res, id, PcOf(c, id), For(c.up, id), For(c.down, id));
    ForConcat(c.down, Sent(c.master, a), id);
    ForSent(c.master, a, id, id);
    assert LockInv(d, id);
    forall x | x != id ensures LockInv(d, x) {
      ForTake(c.up, i, x);
      OthersKeepInv(c, d, id, a, x);
    }
  }

  ghost predicate Evolved(r: Res, id: LkId, o: Outcome) {
    Sound(o.res) && OthersEvolve(r, o.res, id, o.before + o.after)
  }

  lemma LocalRequest(r: Res, id: LkId, mode: Mode, f: Flags)
    requires Sound(r) && Lookup(r, id) == None && RequestArgs(mode, f)
    ensures Evolved(r, id, DoRequest(r, Fresh(id, mode, f)))
  {
    RequestEvolves(r, Fresh(id, mode, f));
  }

  lemma LocalConvert(r: Res, id: LkId, mode: Mode, f: Flags)
    requires Sound(r) && Stuck(r) && Legal(r, Runs.Convert(id, mode, f)) && KeepsLock(mode, f)
    ensures Evolved(r, id, DoConvert(r, id, mode, f))
  {
    if Has(r.grant, id) {
      ConvertEvolves(r, id, mode, f);
    }
  }

  lemma LocalUnlock(r: Res, id: LkId)
    requires Sound(r)
    ensures Evolved(r, id, DoUnlock(r, id))
  {
    var o := DoUnlock(r, id);
    if Lookup(r, id).Some? {
      UnlockEvolves(r, id);
      assert o.before + o.after == o.after;
    }
  }

  lemma LocalCancel(r: Res, id: LkId)
    requires Sound(r)
    ensures Evolved(r, id, DoCancel(r, id))
  {
    if Lookup(r, id).Some? {
      var o := DoCancel(r, id);
      CancelEvolves(r, id);
      assert o.before + o.after == o.after;
    } else {
      NothingKnown(r, id);
    }
  }

  lemma NothingKnown(r: Res, id: LkId)
    requires Sound(r) && Lookup(r, id) == None
    ensures DoCancel(r, id) == Outcome(r, NoEnt, [], []) && Evolved(r, id, Outcome(r, NoEnt, [], []))
  {
    Unmoved(r);
  }

  lemma LocalEvolves(r: Res, op: Op)
    requires Sound(r) && Stuck(r) && Legal(r, op) && (op.Convert? ==> KeepsLock(op.mode, op.flags))
    ensures Evolved(r, op.id, Apply(r, op))
  {
    match op
    case Request(id, mode, f) => LocalRequest(r, id, mode, f);
    case Convert(id, mode, f) => LocalConvert(r, id, mode, f);
    case Unlock(id) => LocalUnlock(r, id);
    case Cancel(id) => LocalCancel(r, id);
  }

  lemma OnMasterKeepsInv(c: Cluster, op: Op)
    requires Inv(c) && Enabled(c, OnMaster(op))
    ensures Inv(Next(c, OnMaster(op)))
  {
    var d := Next(c, OnMaster(op));
    var a := Answer(Apply(c.res, op), []);
    LocalEvolves(c.res, op);
    StepStuck(c.res, op);
    assert LockInv(c, op.id);
    ForConcat(c.down, Sent(c.master, a), op.id);
    ForSent(c.master, a, op.id, op.id);
    assert LockInv(d, op.id);
    forall x | x != op.id ensures LockInv(d, x) {
      OthersKeepInv(c, d, op.id, a, x);
    }
  }

  lemma StepKeepsInv(c: Cluster, e: Event)
    requires Inv(c) && Enabled(c, e)
    ensures Inv(Next(c, e))
  {
    match e
    case SendRequest(id, mode, f) => RequestKeepsInv(c, id, mode, f);
    case SendConvert(id, mode, f) => ConvertKeepsInv(c, id, mode, f);
    case SendUnlock(id) => UnlockKeepsInv(c, id);
    case SendCancel(id) => CancelKeepsInv(c, id);
    case OnMaster(op) => OnMasterKeepsInv(c, op);
    case MasterReceives(i) => MasterReceivesKeepsInv(c, i);
    case NodeReceives(i) => NodeReceivesKeepsInv(c, i);
  }

  // ----- what follows

  lemma {:induction false} ChainWeakens(from: Mode, up: seq<ToMaster>, to: Mode)
    requires Chain(from, up, to)
    ensures NoStronger(to, from)
  {
    if up != [] {
      ChainWeakens(up[0].mode, up[1..], to);
      StrengthIsNumeric(up[0].mode, from);
    }
  }

  /** The mode a node thinks it holds is never stronger than the mode the master has for it. */
  lemma HeldIsBacked(c: Cluster, id: LkId, m: Mode)
    requires Inv(c) && HeldIn(c, id, m)
    ensures exists l :: Holds(c.res, l) && l.id == id && NoStronger(m, l.gr)
  {
    assert LockInv(c, id);
    if id.node != c.master {
      var p := c.pcs[id];
      var up, mc := For(c.up, id), Lookup(c.res, id);
      UsableIsBacked(p, up, For(c.down, id), mc);
      assert On(c.res, mc.value.status, mc.value.lock);
    }
  }

  lemma UsableIsBacked(p: Pc, up: seq<ToMaster>, down: seq<ToNode>, mc: Option<Entry>)
    requires InPhase(Some(p), up, down, mc) && Usable(p)
    ensures mc.Some? && mc.value.status != Waiting && NoStronger(p.gr, mc.value.lock.gr)
  {
    if p.wait == ForConvert {
      if down == [] {
        ChainWeakens(mc.value.lock.gr, up[..|up| - 1], p.gr);
      } else {
        StrengthIsNumeric(p.gr, p.rq);
      }
    } else if p.status == Some(Granted) {
      ChainWeakens(mc.value.lock.gr, if p.wait == ForCancel then [] else up, p.gr);
    } else {
      StrengthIsNumeric(p.gr, p.rq);
    }
  }

  lemma InvExcludes(c: Cluster)
    requires Inv(c)
    ensures MutualExclusion(c)
  {
    forall a, b, m, n | a != b && HeldIn(c, a, m) && HeldIn(c, b, n) ensures Compat(m, n) {
      HeldIsBacked(c, a, m);
      HeldIsBacked(c, b, n);
      var k :| Holds(c.res, k) && k.id == a && NoStronger(m, k.gr);
      var l :| Holds(c.res, l) && l.id == b && NoStronger(n, l.gr);
      assert Compat(k.gr, l.gr);
      assert Compat(m, l.gr) && Compat(l.gr, m) && Compat(n, m);
    }
  }

  lemma {:induction false} RunInv(cs: seq<Cluster>, es: seq<Event>, n: nat)
    requires Wire.IsRun(cs, es) && n <= |es|
    ensures Inv(cs[n])
  {
    if n == 0 {
      InvAtFirst(cs[0].master);
    } else {
      RunInv(cs, es, n - 1);
      assert Wire.Step(cs[n - 1], es[n - 1], cs[n]);
      StepKeepsInv(cs[n - 1], es[n - 1]);
    }
  }

  /** The reason a lock manager exists: at every moment of every run, any two locks that their owners may act
      on, on whatever nodes, are held in compatible modes. */
  lemma ClusterWideMutualExclusion(cs: seq<Cluster>, es: seq<Event>, n: nat)
    requires Wire.IsRun(cs, es) && n <= |es|
    ensures MutualExclusion(cs[n])
  {
    RunInv(cs, es, n);
    InvExcludes(cs[n]);
  }

  // ----- what a node is told about demotions

  /** Event `e` delivers message `m` for lock `id`. */
  ghost predicate Delivers(c: Cluster, e: Event, id: LkId, m: ToNode) {
    e.NodeReceives? && e.i < |c.down| && c.down[e.i] == Msg(id, m)
  }

  ghost predicate HearsOf(c: Cluster, e: Event, id: LkId) {
    exists m :: Delivers(c, e, id, m)
  }

  /** The last thing the node of `id` has heard of it is that its conversion was queued and it was demoted. */
  ghost predicate ToldOfDemotion(cs: seq<Cluster>, es: seq<Event>, n: nat, id: LkId)
    requires n <= |es| < |cs|
  {
    n > 0
    && if HearsOf(cs[n - 1], es[n - 1], id) then Delivers(cs[n - 1], es[n - 1], id, ConvertReply(InProgress, true))
       else ToldOfDemotion(cs, es, n - 1, id)
  }

  /** A node that has been told so holds on to nothing: from that message to the next one its copy has null mode. */
  lemma {:induction false} ToldMeansNull(cs: seq<Cluster>, es: seq<Event>, n: nat, id: LkId)
    requires Wire.IsRun(cs, es) && n <= |es| && ToldOfDemotion(cs, es, n, id)
    ensures id in cs[n].pcs && cs[n].pcs[id].gr == NL && cs[n].pcs[id].status == Some(Converting)
  {
    var c, e := cs[n - 1], es[n - 1];
    RunInv(cs, es, n - 1);
    assert Wire.Step(c, e, cs[n]);
    if HearsOf(c, e, id) {
      HeardOfDemotion(c, e.i);
    } else {
      ToldMeansNull(cs, es, n - 1, id);
      KeepsConverting(c, e, id);
    }
  }

  lemma HeardOfDemotion(c: Cluster, i: nat)
    requires Inv(c) && Enabled(c, NodeReceives(i)) && c.down[i].body == ConvertReply(InProgress, true)
    ensures var d := Next(c, NodeReceives(i)); var id := c.down[i].id;
      id in d.pcs && d.pcs[id].gr == NL && d.pcs[id].status == Some(Converting)
  {
    var id := c.down[i].id;
    ForTake(c.down, i, id);
    assert LockInv(c, id);
    OnlyConvertReply(PcOf(c, id), For(c.up, id), For(c.down, id), Lookup(c.res, id));
  }

  lemma OnlyConvertReply(pc: Option<Pc>, up: seq<ToMaster>, down: seq<ToNode>, mc: Option<Entry>)
    requires InPhase(pc, up, down, mc) && down != [] && down[0].ConvertReply?
    ensures pc.Some? && Changing(pc.value)
  {
  }

  /** Nothing but a message changes the mode or the status of a lock that is being converted. */
  lemma KeepsConverting(c: Cluster, e: Event, id: LkId)
    requires Inv(c) && Enabled(c, e) && !HearsOf(c, e, id) && id in c.pcs && c.pcs[id].status == Some(Converting)
    ensures var d := Next(c, e);
      id in d.pcs && d.pcs[id].gr == c.pcs[id].gr && d.pcs[id].status == Some(Converting)
  {
    if e.NodeReceives? {
      assert Delivers(c, e, c.down[e.i].id, c.down[e.i].body);
    }
  }

  /** ... so that what it believes to hold is backed by the master until it hears of the lock again, unless it has
      given the lock up itself. */
  lemma ToldIsBacked(cs: seq<Cluster>, es: seq<Event>, n: nat, id: LkId)
    requires Wire.IsRun(cs, es) && n <= |es| && ToldOfDemotion(cs, es, n, id)
    ensures id in cs[n].pcs
    ensures cs[n].pcs[id].wait != ForUnlock ==>
      exists l :: Holds(cs[n].res, l) && l.id == id && NoStronger(cs[n].pcs[id].gr, l.gr)
  {
    ToldMeansNull(cs, es, n, id);
    RunInv(cs, es, n);
    assert LockInv(cs[n], id);
    var mc := Lookup(cs[n].res, id);
    if cs[n].pcs[id].wait != ForUnlock {
      ConvertingIsKnown(cs[n].pcs[id], For(cs[n].up, id), For(cs[n].down, id), mc);
      StrengthIsNumeric(NL, mc.value.lock.gr);
      assert On(cs[n].res, mc.value.status, mc.value.lock);
    }
  }

  lemma ConvertingIsKnown(p: Pc, up: seq<ToMaster>, down: seq<ToNode>, mc: Option<Entry>)
    requires InPhase(Some(p), up, down, mc) && p.status == Some(Converting) && p.wait != ForUnlock
    ensures mc.Some? && mc.value.status != Waiting
  {
  }

  /** What a message leaves of the process copy `p`: a grant gives the mode asked for or, if it says so, the
      alternative; a refusal changes nothing, or takes the request back; a request that is refused, cancelled or
      unlocked is gone. */
  ghost predicate Followed(p: Pc, m: ToNode, q: Option<Pc>) {
    match m
    case LockReply(rc, alt) =>
      if rc == Again then q == None
      else if rc == Ok then q == Some(Pc(Promised(p, alt), IV, p.flags, Some(Granted), Idle))
      else q == Some(p.(status := Some(Waiting), wait := Idle))
    case ConvertReply(rc, demoted) =>
      if rc == Ok then q == Some(Pc(p.rq, IV, p.flags, Some(Granted), Idle))
      else if rc == InProgress then
        q == Some(Pc(if demoted then NL else p.gr, p.rq, p.flags, Some(Converting), Idle))
      else if rc == Deadlk then q == Some(p.(rq := IV, wait := Idle))
      else q == Some(p.(wait := Idle))
    case UnlockReply => q == None
    case CancelReply(rc) =>
      if rc != Cancelled then q == Some(p.(wait := Idle))
      else if p.status == Some(Waiting) then q == None
      else q == Some(Pc(p.gr, IV, p.flags, Some(Granted), Idle))
    case GrantNotice(alt) => q == Some(Pc(Promised(p, alt), IV, p.flags, Some(Granted), p.wait))
  }

  /** Every message that is delivered in a run is followed. */
  lemma MessagesAreFollowed(cs: seq<Cluster>, es: seq<Event>, n: nat, id: LkId, m: ToNode)
    requires Wire.IsRun(cs, es) && n < |es| && Delivers(cs[n], es[n], id, m)
    ensures id in cs[n].pcs && (cs[n].pcs[id].wait != ForUnlock ==> Followed(cs[n].pcs[id], m, PcOf(cs[n + 1], id)))
  {
    RunInv(cs, es, n);
    assert Wire.Step(cs[n], es[n], cs[n + 1]);
    var c := cs[n];
    ForTake(c.down, es[n].i, id);
    assert LockInv(c, id);
    NodeReceivesKeepsInv(c, es[n].i);
    if c.pcs[id].wait != ForUnlock {
      MessageFollowed(c.pcs[id], For(c.up, id), For(c.down, id), Lookup(c.res, id));
    }
  }

  lemma MessageFollowed(p: Pc, up: seq<ToMaster>, down: seq<ToNode>, mc: Option<Entry>)
    requires InPhase(Some(p), up, down, mc) && down != [] && p.wait != ForUnlock
    ensures Followed(p, down[0], Receive(p, down[0]))
  {
  }

  /** What is sent is noted: a request and a conversion that needs an answer wait for it, and a down-conversion is
      complete at once. */
  lemma SendsAreNoted(cs: seq<Cluster>, es: seq<Event>, n: nat)
    requires Wire.IsRun(cs, es) && n < |es|
    ensures match es[n]
      case SendRequest(id, mode, f) =>
        && PcOf(cs[n + 1], id) == Some(Pc(IV, mode, f, None, ForRequest))
        && cs[n + 1].up == cs[n].up + [Msg(id, AskLock(mode, f))]
      case SendConvert(id, mode, f) =>
        && id in cs[n].pcs && cs[n + 1].up == cs[n].up + [Msg(id, AskConvert(mode, f))]
        && var gr := cs[n].pcs[id].gr;
           PcOf(cs[n + 1], id)
           == Some(if mode < gr && !(gr == PR && mode == CW) then Pc(mode, IV, f, Some(Granted), Idle)
                   else Pc(gr, mode, f, Some(Granted), ForConvert))
      case SendUnlock(id) =>
        id in cs[n].pcs && PcOf(cs[n + 1], id) == Some(cs[n].pcs[id].(wait := ForUnlock))
        && cs[n + 1].up == cs[n].up + [Msg(id, AskUnlock)]
      case SendCancel(id) =>
        id in cs[n].pcs && PcOf(cs[n + 1], id) == Some(cs[n].pcs[id].(wait := ForCancel))
        && cs[n + 1].up == cs[n].up + [Msg(id, AskCancel)]
      case _ => true
  {
    assert Wire.Step(cs[n], es[n], cs[n + 1]);
  }

  /** A reply says whether the lock was demoted: the master has the mode the node knows of, or, if the reply says
      so, none. */
  lemma RepliesTellOfDemotions(cs: seq<Cluster>, es: seq<Event>, n: nat)
    requires Wire.IsRun(cs, es) && n < |es| && es[n].MasterReceives? && Live(cs[n].res.convert)
    requires es[n].i < |cs[n].up| && cs[n].up[es[n].i].body.AskConvert?
    ensures
      var id, m := cs[n].up[es[n].i].id, cs[n].up[es[n].i].body;
      var a, e := Handle(cs[n].res, id, m), Lookup(cs[n + 1].res, id);
      id in cs[n].pcs
      && (a.outcome.rc == InProgress ==>
            && a.reply != [] && a.reply[0].body.ConvertReply? && e.Some?
            && e.value.lock.gr == if a.reply[0].body.demoted then NL else cs[n].pcs[id].gr)
  {
    var c, i := cs[n], es[n].i;
    RunInv(cs, es, n);
    assert Wire.Step(c, es[n], cs[n + 1]);
    ForTake(c.up, i, c.up[i].id);
    assert LockInv(c, c.up[i].id);
    TellsOfDemotion(c.res, c.up[i].id, PcOf(c, c.up[i].id), For(c.up, c.up[i].id), For(c.down, c.up[i].id));
  }

  lemma TellsOfDemotion(r: Res, id: LkId, pc: Option<Pc>, up: seq<ToMaster>, down: seq<ToNode>)
    requires Sound(r) && Stuck(r) && InPhase(pc, up, down, Lookup(r, id)) && up != [] && up[0].AskConvert?
    ensures var a := Handle(r, id, up[0]); var e := Lookup(a.outcome.res, id);
      && pc.Some?
      && (a.outcome.rc == InProgress ==>
            && a.reply != [] && a.reply[0].body.ConvertReply? && e.Some?
            && e.value.lock.gr == if a.reply[0].body.demoted then NL else pc.value.gr)
  {
    OnlyConvert(pc, up, down, Lookup(r, id));
    ConvertEvolves(r, id, up[0].mode, up[0].flags);
    ConvertHandled(r, id, up[0].mode, up[0].flags);
    if DownConversion(Lookup(r, id).value.lock.gr, up[0].mode) {
      DownConversionIsImmediate(r, id, up[0].mode, up[0].flags);
    }
  }

  /** With nothing outstanding and nothing on the way, the two copies of a lock agree; except that the master may
      have demoted a queued conversion that allows it, after it had told the node that it was queued. */
  lemma CopiesAgree(cs: seq<Cluster>, es: seq<Event>, n: nat, id: LkId)
    requires Wire.IsRun(cs, es) && n <= |es| && id.node != cs[n].master
    requires For(cs[n].up, id) == [] && For(cs[n].down, id) == []
    requires id in cs[n].pcs ==> cs[n].pcs[id].wait == Idle
    ensures id in cs[n].pcs <==> Lookup(cs[n].res, id).Some?
    ensures id in cs[n].pcs ==>
      var p, e := cs[n].pcs[id], Lookup(cs[n].res, id).value;
      && p.status == Some(e.status)
      && (e.status != Granted ==> p.rq == e.lock.rq && p.flags == e.lock.flags)
      && (e.status == Granted ==> AsksNothing(p))
      && (p.gr == e.lock.gr
          || (e.status == Converting && p.flags.convdeadlk && e.lock.gr == NL && !ToldOfDemotion(cs, es, n, id)))
  {
    RunInv(cs, es, n);
    var c := cs[n];
    assert LockInv(c, id);
    WaitersHaveNoMode(c.res, id);
    NothingOutstanding(PcOf(c, id), Lookup(c.res, id));
    if ToldOfDemotion(cs, es, n, id) {
      ToldMeansNull(cs, es, n, id);
    }
  }

  lemma NothingOutstanding(pc: Option<Pc>, mc: Option<Entry>)
    requires InPhase(pc, [], [], mc) && (pc.Some? ==> pc.value.wait == Idle)
    requires mc.Some? && mc.value.status == Waiting ==> mc.value.lock.gr == IV
    ensures pc.Some? <==> mc.Some?
    ensures pc.Some? ==>
      var p, e := pc.value, mc.value;
      && p.status == Some(e.status)
      && (e.status != Granted ==> p.rq == e.lock.rq && p.flags == e.lock.flags)
      && (e.status == Granted ==> AsksNothing(p))
      && (p.gr == e.lock.gr || (e.status == Converting && p.flags.convdeadlk && e.lock.gr == NL))
  {
  }

  lemma WaitersHaveNoMode(r: Res, id: LkId)
    requires Sound(r)
    ensures Lookup(r, id).Some? && Lookup(r, id).value.status == Waiting ==> Lookup(r, id).value.lock.gr == IV
  {
    if Lookup(r, id).Some? {
      assert On(r, Lookup(r, id).value.status, Lookup(r, id).value.lock);
    }
  }

  /** The master never has to refuse a message for want of the lock it names, or because it is busy, and a
      node is never told about a lock it no longer has. */
  lemma NoMessageIsLost(cs: seq<Cluster>, es: seq<Event>, n: nat)
    requires Wire.IsRun(cs, es) && n < |es|
    ensures Wire.Step(cs[n], es[n], cs[n + 1])
    ensures es[n].MasterReceives? ==>
      var m := cs[n].up[es[n].i];
      var rc := Handle(cs[n].res, m.id, m.body).outcome.rc;
      rc != Busy && rc != NoEnt
    ensures es[n].NodeReceives? ==> cs[n].down[es[n].i].id in cs[n].pcs
  {
    RunInv(cs, es, n);
    assert Wire.Step(cs[n], es[n], cs[n + 1]);
    match es[n]
    case MasterReceives(i) => MasterAnswers(cs[n], i);
    case NodeReceives(i) => NodeReceivesKeepsInv(cs[n], i);
    case _ =>
  }

  lemma MasterAnswers(c: Cluster, i: nat)
    requires Inv(c) && Enabled(c, MasterReceives(i))
    ensures var rc := Handle(c.res, c.up[i].id, c.up[i].body).outcome.rc; rc != Busy && rc != NoEnt
  {
    var id := c.up[i].id;
    ForTake(c.up, i, id);
    assert LockInv(c, id);
    MessageFits(c.res, id, PcOf(c, id), For(c.up, id), For(c.down, id));
    RefusesNobody(c.res, id, c.up[i].body);
  }

  /** A message names a lock the master has, on the queue it has to be on. */
  ghost predicate Fits(r: Res, id: LkId, m: ToMaster) {
    match m
    case AskLock(_, _) => true
    case AskConvert(_, _) => Has(r.grant, id)
    case AskUnlock => Known(r, id)
    case AskCancel => Known(r, id)
  }

  lemma MessageFits(r: Res, id: LkId, pc: Option<Pc>, up: seq<ToMaster>, down: seq<ToNode>)
    requires InPhase(pc, up, down, Lookup(r, id)) && up != []
    ensures Fits(r, id, up[0])
  {
    match up[0]
    case AskLock(_, _) =>
    case AskConvert(_, _) => OnlyConvert(pc, up, down, Lookup(r, id));
    case AskUnlock => OnlyUnlock(pc, up, down, Lookup(r, id));
    case AskCancel => OnlyCancel(pc, up, down, Lookup(r, id));
  }

  lemma RefusesNobody(r: Res, id: LkId, m: ToMaster)
    requires Live(r.convert) && Fits(r, id, m)
    ensures var rc := Handle(r, id, m).outcome.rc; rc != Busy && rc != NoEnt
  {
    if m.AskConvert? {
      ConvertIsAnswered(r, id, m.mode, m.flags);
    }
  }

  lemma ConvertIsAnswered(r: Res, id: LkId, mode: Mode, f: Flags)
    requires Live(r.convert) && Has(r.grant, id)
    ensures var rc := DoConvert(r, id, mode, f).rc; rc != Busy && rc != NoEnt
  {
  }
}

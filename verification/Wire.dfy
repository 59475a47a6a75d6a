/** Locks held by other nodes.  A node keeps a process copy of each of its locks, the master keeps a master
    copy, and they talk over channels that keep the order of messages between two nodes. */
module Wire {
  import opened Modes
  import opened Resource
  import opened Shape
  import opened Safety
  import opened Evolution
  import opened Operations
  import opened Runs

  datatype Wait = Idle | ForRequest | ForConvert | ForUnlock | ForCancel

  /** A process copy; one that has not been added to a queue yet has no status. */
  datatype Pc = Pc(gr: Mode, rq: Mode, flags: Flags, status: Option<Status>, wait: Wait)

  datatype ToMaster = AskLock(mode: Mode, flags: Flags) | AskConvert(mode: Mode, flags: Flags) | AskUnlock | AskCancel

  datatype ToNode = LockReply(rc: Rc, alt: bool) | ConvertReply(rc: Rc, demoted: bool)
    | UnlockReply | CancelReply(rc: Rc) | GrantNotice(alt: bool)

  datatype Msg<T> = Msg(id: LkId, body: T)

  /** `up` and `down` hold the messages of all nodes; only the oldest of each node can be delivered. */
  datatype Cluster = Cluster(master: nat, res: Res, pcs: map<LkId, Pc>, up: seq<Msg<ToMaster>>, down: seq<Msg<ToNode>>)

  function Empty(master: nat): Cluster {
    Cluster(master, EmptyRes, map[], [], [])
  }

  datatype Event = SendRequest(id: LkId, mode: Mode, flags: Flags)
                 | SendConvert(id: LkId, mode: Mode, flags: Flags)
                 | SendUnlock(id: LkId)
                 | SendCancel(id: LkId)
                 | OnMaster(op: Op)
                 | MasterReceives(i: nat)
                 | NodeReceives(i: nat)

  predicate Oldest<T>(q: seq<Msg<T>>, i: nat) {
    i < |q| && forall j :: 0 <= j < i ==> q[j].id.node != q[i].id.node
  }

  function Take<T>(q: seq<Msg<T>>, i: nat): seq<Msg<T>>
    requires i < |q|
  {
    q[..i] + q[i + 1..]
  }

  /** Not both alternative modes with a request for PR: the two ends would pick different ones. */
  predicate AltArgs(mode: Mode, f: Flags) {
    !(f.altpr && f.altcw && mode == PR)
  }

  /** What the argument checks and the channels let through. */
  ghost predicate Possible(c: Cluster, e: Event) {
    match e
    case SendRequest(id, mode, f) => id.node != c.master && id !in c.pcs && RequestArgs(mode, f)
    case SendConvert(id, mode, f) =>
      id in c.pcs && c.pcs[id].status == Some(Granted) && c.pcs[id].wait == Idle && ConvertArgs(c.pcs[id].gr, mode, f)
    case SendUnlock(id) => id in c.pcs && c.pcs[id].wait == Idle
    case SendCancel(id) =>
      && id in c.pcs && c.pcs[id].wait == Idle
      && (c.pcs[id].status == Some(Waiting) || c.pcs[id].status == Some(Converting))
    case OnMaster(op) => op.id.node == c.master && Legal(c.res, op)
    case MasterReceives(i) => Oldest(c.up, i)
    case NodeReceives(i) => Oldest(c.down, i)
  }

  /** The mode this lock goes back to if its conversion is cancelled is the mode the master has for it. */
  predicate Revertible(p: Pc) {
    p.status == Some(Converting) ==> !p.flags.convdeadlk || p.rq <= CR
  }

  /** A request for PR must not name both alternatives; a conversion must name none unless it is to a mode weaker
      than CW, or, on the master itself, unless it keeps its lock; and a conversion that the master may demote must
      not be cancelled.  `AltLimits`, `LostLocks` and `CancelLimits` show what each other use breaks. */
  predicate Disciplined(c: Cluster, e: Event) {
    match e
    case SendRequest(_, mode, f) => AltArgs(mode, f)
    case SendConvert(_, mode, f) => PlainConvert(mode, f)
    case SendCancel(id) => id in c.pcs ==> Revertible(c.pcs[id])
    case OnMaster(op) => op.Convert? ==> KeepsLock(op.mode, op.flags)
    case _ => true
  }

  ghost predicate Enabled(c: Cluster, e: Event) {
    Possible(c, e) && Disciplined(c, e)
  }

  // ----- the process copy

  /** `_grant_lock` on the process copy: a lock granted the mode it has stays where it is. */
  function GrantPc(p: Pc): Pc {
    if p.gr != p.rq then p.(gr := p.rq, rq := IV, status := Some(Granted)) else p.(rq := IV)
  }

  function MungeAlt(p: Pc, alt: bool): Pc {
    if !alt then p else if p.flags.altpr then p.(rq := PR) else if p.flags.altcw then p.(rq := CW) else p
  }

  function MungeDemoted(p: Pc, demoted: bool): Pc {
    if !demoted || p.rq == IV || p.gr == IV then p else p.(gr := NL)
  }

  /** `revert_lock` on the process copy: a request is gone, a conversion is taken back. */
  function Reverted(p: Pc): Option<Pc> {
    if p.status == Some(Waiting) then None else Some(p.(rq := IV, status := Some(Granted)))
  }

  /** What a message from the master does to the process copy; `None` when the lock is gone. */
  function Receive(p: Pc, m: ToNode): Option<Pc> {
    match m
    case LockReply(rc, alt) =>
      var q := MungeAlt(p.(wait := Idle), alt);
      if rc == Ok then Some(GrantPc(q))
      else if rc == InProgress then Some(q.(status := Some(Waiting)))
      else None
    case ConvertReply(rc, demoted) =>
      var q := p.(wait := Idle);
      if rc == Ok then Some(GrantPc(MungeDemoted(q, demoted)))
      else if rc == InProgress then Some(MungeDemoted(q, demoted).(status := Some(Converting)))
      else if rc == Deadlk then Some(q.(rq := IV))
      else Some(q)
    case UnlockReply => None
    case CancelReply(rc) =>
      var q := p.(wait := Idle);
      if rc == Cancelled then Reverted(q) else Some(q)
    case GrantNotice(alt) => Some(GrantPc(MungeAlt(p, alt)))
  }

  /** Asking for a conversion: a down-conversion is complete at once, without a reply. */
  function Converted(p: Pc, mode: Mode, f: Flags): Pc {
    var q := p.(rq := mode, flags := f);
    if DownConversion(p.gr, mode) then GrantPc(q) else q.(wait := ForConvert)
  }

  // ----- the master

  function AltOf(r: Res, id: LkId): bool {
    Lookup(r, id).Some? && Lookup(r, id).value.lock.altmode
  }

  function DemotedOf(r: Res, id: LkId): bool {
    Lookup(r, id).Some? && Lookup(r, id).value.lock.demoted
  }

  /** The master's own locks are told directly; the others get a message. */
  function Notices(master: nat, r: Res, grants: seq<LkId>): seq<Msg<ToNode>> {
    if grants == [] then []
    else
      (if grants[0].node == master then [] else [Msg(grants[0], GrantNotice(AltOf(r, grants[0])))])
      + Notices(master, r, grants[1..])
  }

  datatype Answer = Answer(outcome: Outcome, reply: seq<Msg<ToNode>>)

  /** What the master does with a message, and the reply it sends, if any. */
  function Handle(r: Res, id: LkId, m: ToMaster): Answer
    requires Live(r.convert)
  {
    match m
    case AskLock(mode, f) =>
      var o := DoRequest(r, Fresh(id, mode, f));
      Answer(o, [Msg(id, LockReply(o.rc, AltOf(o.res, id)))])
    case AskConvert(mode, f) =>
      var o := DoConvert(r, id, mode, f);
      var silent := Has(r.grant, id) && DownConversion(r.grant[Index(r.grant, id)].gr, mode);
      Answer(o, if silent then [] else [Msg(id, ConvertReply(o.rc, DemotedOf(o.res, id)))])
    case AskUnlock =>
      var o := DoUnlock(r, id);
      Answer(o, [Msg(id, UnlockReply)])
    case AskCancel =>
      var o := DoCancel(r, id);
      Answer(o, [Msg(id, CancelReply(o.rc))])
  }

  /** Grants made on the way are sent before the reply, those of the effects after it. */
  function Sent(master: nat, a: Answer): seq<Msg<ToNode>> {
    Notices(master, a.outcome.res, a.outcome.before) + a.reply + Notices(master, a.outcome.res, a.outcome.after)
  }

  function Next(c: Cluster, e: Event): Cluster
    requires Live(c.res.convert)
    requires match e
      case SendConvert(id, _, _) => id in c.pcs
      case SendUnlock(id) => id in c.pcs
      case SendCancel(id) => id in c.pcs
      case MasterReceives(i) => i < |c.up|
      case NodeReceives(i) => i < |c.down|
      case _ => true
  {
    match e
    case SendRequest(id, mode, f) =>
      c.(pcs := c.pcs[id := Pc(IV, mode, f, None, ForRequest)], up := c.up + [Msg(id, AskLock(mode, f))])
    case SendConvert(id, mode, f) =>
      c.(pcs := c.pcs[id := Converted(c.pcs[id], mode, f)], up := c.up + [Msg(id, AskConvert(mode, f))])
    case SendUnlock(id) =>
      c.(pcs := c.pcs[id := c.pcs[id].(wait := ForUnlock)], up := c.up + [Msg(id, AskUnlock)])
    case SendCancel(id) =>
      c.(pcs := c.pcs[id := c.pcs[id].(wait := ForCancel)], up := c.up + [Msg(id, AskCancel)])
    case OnMaster(op) =>
      var o := Apply(c.res, op);
      c.(res := o.res, down := c.down + Sent(c.master, Answer(o, [])))
    case MasterReceives(i) =>
      var a := Handle(c.res, c.up[i].id, c.up[i].body);
      c.(res := a.outcome.res, up := Take(c.up, i), down := c.down + Sent(c.master, a))
    case NodeReceives(i) =>
      var id := c.down[i].id;
      var p := if id in c.pcs then Receive(c.pcs[id], c.down[i].body) else None;
      c.(pcs := if p.Some? then c.pcs[id := p.value] else c.pcs - {id}, down := Take(c.down, i))
  }

  ghost predicate Step(c: Cluster, e: Event, d: Cluster) {
    Live(c.res.convert) && Enabled(c, e) && d == Next(c, e)
  }

  ghost predicate IsRun(cs: seq<Cluster>, es: seq<Event>) {
    && |cs| == |es| + 1 && cs[0] == Empty(cs[0].master)
    && forall i :: 0 <= i < |es| ==> Step(cs[i], es[i], cs[i + 1])
  }

  // ----- what the nodes may rely on

  predicate InConversion(p: Pc) {
    p.wait == ForConvert || p.status == Some(Converting)
  }

  /** A lock its owner may act on.  It is not while its unlock is under way, nor during a conversion in which
      the master may give up the old mode first: the middle ones, and those with CONVDEADLK. */
  predicate Usable(p: Pc) {
    && (p.status == Some(Granted) || p.status == Some(Converting)) && p.wait != ForUnlock
    && !(InConversion(p) && (MiddleConversion(p.gr, p.rq) || p.flags.convdeadlk))
  }

  /** `id` is usable in mode `m`: by its process copy, or, for the master's own locks, in the queues. */
  ghost predicate HeldIn(c: Cluster, id: LkId, m: Mode) {
    if id.node == c.master then exists l :: Holds(c.res, l) && l.id == id && l.gr == m
    else id in c.pcs && Usable(c.pcs[id]) && c.pcs[id].gr == m
  }

  ghost predicate MutualExclusion(c: Cluster) {
    forall a, b, m, n :: a != b && HeldIn(c, a, m) && HeldIn(c, b, n) ==> Compat(m, n)
  }
}

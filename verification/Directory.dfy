/** Who is the master of a resource?  One resource name, its directory node, and any number of nodes that
    look the name up, use it, forget it and use it again. */
module Directory {
  import opened Evolution

  datatype Master = Unknown | At(node: nat)

  /** A node's record of the resource: in use (`active`) or on the toss list, which master it believes in,
      the lock whose request settles a doubtful master, and the locks that wait for that. */
  datatype Rsb = Rsb(active: bool, master: Master, first: Option<nat>, parked: set<nat>)

  /** A lock, by its node and number. */
  datatype Lk = Lk(node: nat, num: nat)

  datatype Kind = ForLookup | ForRequest | ForNotify

  datatype Answer = Served | Again | NotMaster | Missing

  datatype Body = Lookup(num: nat) | LookupReply(num: nat, master: nat)
                | Request(num: nat) | RequestReply(num: nat, rc: Answer)
                | Remove
                | Notify(num: nat) | NotifyReply(num: nat)

  datatype Packet = Packet(from: nat, to: nat, body: Body)

  /** `open` says whether nodes other than the creator may know the name yet; only `Children`, where the parent's
      lock decides that, makes use of it and of the event `Open`. */
  datatype Name = Name(dir: nat, rsbs: map<nat, Rsb>, waits: map<Lk, Kind>, net: seq<Packet>, open: bool,
    creator: Option<nat>)

  function Unused(dir: nat): Name {
    Name(dir, map[], map[], [], false, None)
  }

  datatype Event = Ask(node: nat, num: nat)
                 | AskNew(node: nat, num: nat)
                 | Open
                 | Unpark(node: nat, num: nat, alone: bool)
                 | Toss(node: nat)
                 | Shrink(node: nat)
                 | Deliver(i: nat, rc: Answer)

  // ----- finding the record and its master

  /** The record a request starts from, and whether its master is doubtful: it is when the record lay unused. */
  function FindLocal(n: Name, x: nat): (Rsb, bool) {
    if x in n.rsbs then
      var r := n.rsbs[x];
      if r.active then (r, false)
      else if r.master != At(x) then (r.(active := true, first := None), true)
      else (r.(active := true), false)
    else (Rsb(true, if x == n.dir then At(x) else Unknown, None, {}), false)
  }

  function Send(n: Name, x: nat, r: Rsb, num: nat, kind: Kind, to: nat, body: Body): Name {
    n.(rsbs := n.rsbs[x := r], waits := n.waits[Lk(x, num) := kind], net := n.net + [Packet(x, to, body)])
  }

  /** `set_master` and the request that follows: send it to the master, serve it here, ask the directory who
      the master is, or wait until another lock has found out. */
  function AskMaster(n: Name, x: nat, r: Rsb, doubtful: bool, num: nat): Name {
    if doubtful && r.master.At? then
      Send(n, x, r.(first := Some(num)), num, ForRequest, r.master.node, Request(num))
    else if r.first.Some? && r.first != Some(num) then n.(rsbs := n.rsbs[x := r.(parked := r.parked + {num})])
    else if r.master == At(x) then n.(rsbs := n.rsbs[x := r])
    else if r.master.At? then Send(n, x, r, num, ForRequest, r.master.node, Request(num))
    else if n.dir == x then n.(rsbs := n.rsbs[x := r.(master := At(x))])
    else Send(n, x, r.(first := Some(num)), num, ForLookup, n.dir, Lookup(num))
  }

  /** Creating a resource under a new name: the creator makes itself the master at once, and tells the
      directory. */
  function Announce(n: Name, x: nat, num: nat): Name {
    var r := Rsb(true, At(x), None, {});
    if x == n.dir then n.(rsbs := n.rsbs[x := r]) else Send(n, x, r, num, ForNotify, n.dir, Notify(num))
  }

  // ----- receiving

  function Take(q: seq<Packet>, i: nat): seq<Packet>
    requires i < |q|
  {
    q[..i] + q[i + 1..]
  }

  function Reply(n: Name, from: nat, to: nat, body: Body): Name {
    n.(net := n.net + [Packet(from, to, body)])
  }

  /** A node is asked for a lock.  If the directory asks, it knows best: the node must be the master. */
  function ReceiveRequest(n: Name, x: nat, from: nat, num: nat, rc: Answer): Name {
    if x in n.rsbs then
      var r := n.rsbs[x];
      if r.master != At(x) && from != n.dir then Reply(n, x, from, RequestReply(num, NotMaster))
      else
        var first := if r.active || r.master == At(x) then r.first else None;
        Reply(n.(rsbs := n.rsbs[x := r.(active := true, master := At(x), first := first)]), x, from,
          RequestReply(num, rc))
    else if from == n.dir || x == n.dir then
      Reply(n.(rsbs := n.rsbs[x := Rsb(true, At(x), None, {})]), x, from, RequestReply(num, rc))
    else Reply(n, x, from, RequestReply(num, Missing))
  }

  /** The directory is asked for the master; whoever asks first becomes it.  If the directory is the master
      itself, it serves the request at once. */
  function ReceiveLookup(n: Name, from: nat, num: nat, rc: Answer): Name {
    if n.dir !in n.rsbs then
      Reply(n.(rsbs := n.rsbs[n.dir := Rsb(false, At(from), None, {})]), n.dir, from, LookupReply(num, from))
    else
      var r := n.rsbs[n.dir];
      var m := if r.master == Unknown then from else r.master.node;
      var s := n.(rsbs := n.rsbs[n.dir := r.(master := At(m))]);
      if m == n.dir then ReceiveRequest(s, n.dir, from, num, rc) else Reply(s, n.dir, from, LookupReply(num, m))
  }

  function ReceiveLookupReply(n: Name, x: nat, num: nat, m: nat): Name {
    var s := n.(waits := n.waits - {Lk(x, num)});
    if x !in n.rsbs then s
    else
      var r := n.rsbs[x].(master := At(m));
      AskMaster(s, x, if m == x then r.(first := None) else r, false, num)
  }

  function ReceiveRequestReply(n: Name, x: nat, from: nat, num: nat, rc: Answer): Name {
    var s := n.(waits := n.waits - {Lk(x, num)});
    if x !in n.rsbs then s
    else
      var r := if Lk(x, num) in n.waits && n.waits[Lk(x, num)] == ForLookup then n.rsbs[x].(master := At(from))
        else n.rsbs[x];
      if rc == Served || rc == Again then s.(rsbs := s.rsbs[x := r.(first := None)])
      else
        var r1 := if n.dir != x && r.master != At(x) then r.(master := Unknown) else r;
        var t := AskMaster(s, x, r1, false, num);
        if t.rsbs[x].master == At(x) then t.(rsbs := t.rsbs[x := t.rsbs[x].(first := None)]) else t
  }

  /** The directory forgets the name, unless it is using it. */
  function ReceiveRemove(n: Name, from: nat): Name {
    if n.dir in n.rsbs && !n.rsbs[n.dir].active && n.rsbs[n.dir].master == At(from) then
      n.(rsbs := n.rsbs - {n.dir})
    else
      n
  }

  /** The announcement is for a name the directory does not have. */
  function ReceiveNotify(n: Name, from: nat, num: nat): Name {
    Reply(n.(rsbs := n.rsbs[n.dir := Rsb(false, At(from), None, {})]), n.dir, from, NotifyReply(num))
  }

  function Receive(n: Name, p: Packet, rc: Answer): Name {
    match p.body
    case Lookup(num) => ReceiveLookup(n, p.from, num, rc)
    case LookupReply(num, m) => ReceiveLookupReply(n, p.to, num, m)
    case Request(num) => ReceiveRequest(n, p.to, p.from, num, rc)
    case RequestReply(num, rc') => ReceiveRequestReply(n, p.to, p.from, num, rc')
    case Remove => ReceiveRemove(n, p.from)
    case Notify(num) => ReceiveNotify(n, p.from, num)
    case NotifyReply(num) => n.(waits := n.waits - {Lk(p.to, num)})
  }

  // ----- steps

  predicate Oldest(q: seq<Packet>, i: nat) {
    i < |q| && forall j :: 0 <= j < i ==> q[j].from != q[i].from || q[j].to != q[i].to
  }

  predicate Parked(n: Name, x: nat, num: nat) {
    x in n.rsbs && num in n.rsbs[x].parked
  }

  ghost predicate Waiting(n: Name, x: nat) {
    exists w :: w in n.waits && w.node == x
  }

  /** What may happen, apart from the rule about who may know the name. */
  ghost predicate Possible(n: Name, e: Event) {
    match e
    case Ask(x, num) => Lk(x, num) !in n.waits && !Parked(n, x, num)
    case AskNew(x, num) => n.rsbs == map[] && n.waits == map[] && n.net == [] && !n.open && n.creator == None
    case Open => true
    case Unpark(x, num, _) => Parked(n, x, num) && n.rsbs[x].first == None
    case Toss(x) => x in n.rsbs && n.rsbs[x].active && !Waiting(n, x) && n.rsbs[x].parked == {}
    case Shrink(x) => x in n.rsbs && !n.rsbs[x].active && (x == n.dir ==> n.rsbs[x].master == At(x))
    case Deliver(i, rc) => Oldest(n.net, i) && (rc == Served || rc == Again)
  }

  /** The announcement of the name has not reached the directory yet. */
  ghost predicate NoticeUnderWay(n: Name) {
    exists i :: 0 <= i < |n.net| && n.net[i].body.Notify?
  }

  /** While the announcement of a new name is on its way, nobody but the creator may ask for it.  (Holding the
      parent's lock achieves a little more: see `Children`.) */
  ghost predicate Gate(n: Name, e: Event) {
    match e
    case Ask(x, _) => n.creator == Some(x) || !NoticeUnderWay(n)
    case Open => !NoticeUnderWay(n)
    case _ => true
  }

  function Next(n: Name, e: Event): Name
    requires match e
      case Unpark(x, _, _) => x in n.rsbs
      case Toss(x) => x in n.rsbs
      case Shrink(x) => x in n.rsbs
      case Deliver(i, _) => i < |n.net|
      case _ => true
  {
    match e
    case Ask(x, num) =>
      var (r, doubtful) := FindLocal(n, x);
      AskMaster(n, x, r, doubtful, num)
    case AskNew(x, num) => Announce(n.(creator := Some(x)), x, num)
    case Open => n.(open := true)
    case Unpark(x, num, alone) =>
      var r := n.rsbs[x].(parked := n.rsbs[x].parked - {num});
      AskMaster(n, x, if alone then r.(first := Some(num)) else r, false, num)
    case Toss(x) => n.(rsbs := n.rsbs[x := n.rsbs[x].(active := false)])
    case Shrink(x) =>
      var s := n.(rsbs := n.rsbs - {x});
      if n.rsbs[x].master == At(x) && x != n.dir then Reply(s, x, n.dir, Remove) else s
    case Deliver(i, rc) => Receive(n.(net := Take(n.net, i)), n.net[i], rc)
  }

  ghost predicate Step(n: Name, e: Event, m: Name) {
    Possible(n, e) && Gate(n, e) && m == Next(n, e)
  }

  ghost predicate IsRun(ns: seq<Name>, es: seq<Event>) {
    && |ns| == |es| + 1 && ns[0] == Unused(ns[0].dir)
    && forall i :: 0 <= i < |es| ==> Step(ns[i], es[i], ns[i + 1])
  }

  // ----- what is promised

  predicate IsMaster(n: Name, x: nat) {
    x in n.rsbs && n.rsbs[x].master == At(x)
  }

  ghost predicate OneMaster(n: Name) {
    forall x, y :: IsMaster(n, x) && IsMaster(n, y) ==> x == y
  }
}

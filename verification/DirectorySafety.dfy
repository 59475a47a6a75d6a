/** At most one node is master, over every run in which other nodes ask for a new name only when its creator's
    announcement is no longer on its way. */
module DirectorySafety {
  import opened Evolution
  import opened Directory

  /** The master on record. */
  function OnRecord(n: Name): Master {
    if n.dir in n.rsbs then n.rsbs[n.dir].master else Unknown
  }

  /** The lock that a message belongs to. */
  function Owner(p: Packet): Option<Lk> {
    match p.body
    case Lookup(num) => Some(Lk(p.from, num))
    case Request(num) => Some(Lk(p.from, num))
    case LookupReply(num, _) => Some(Lk(p.to, num))
    case RequestReply(num, _) => Some(Lk(p.to, num))
    case Remove => None
    case Notify(num) => Some(Lk(p.from, num))
    case NotifyReply(num) => Some(Lk(p.to, num))
  }

  predicate WaitsFor(n: Name, w: Lk, k: Kind) {
    w in n.waits && n.waits[w] == k
  }

  ghost predicate RsbOk(n: Name, x: nat)
    requires x in n.rsbs
  {
    var r := n.rsbs[x];
    && (x != n.dir && r.master == At(x) ==> OnRecord(n) == At(x))
    && (x == n.dir ==> r.master.At?)
    && (r.master == Unknown ==> r.parked != {} || exists num :: WaitsFor(n, Lk(x, num), ForLookup))
    && ParkedOk(n, x)
  }

  ghost predicate ParkedOk(n: Name, x: nat)
    requires x in n.rsbs
  {
    forall num :: num in n.rsbs[x].parked ==> n.rsbs[x].active && Lk(x, num) !in n.waits
  }

  ghost predicate DirAsked(p: Packet, dir: nat, x: nat) {
    p.body.Request? && p.from == dir && p.to == x
  }

  /** Message `j` is the directory's request to `x`, or the answer to it, if that comes after message `k`. */
  ghost predicate Pending(n: Name, x: nat, k: nat, j: nat)
  {
    && j < |n.net|
    && (DirAsked(n.net[j], n.dir, x)
        || (n.net[j].body.RequestReply? && n.net[j].from == x && n.net[j].to == n.dir && j > k))
  }

  /** The directory has asked `x` for a lock, and is not answered before message `k`. */
  ghost predicate DirWaitsPast(n: Name, x: nat, k: nat) {
    exists j: nat :: Pending(n, x, k, j)
  }

  /** `x` gave up being master and has not become it again. */
  ghost predicate Gone(n: Name, x: nat, k: nat) {
    && !IsMaster(n, x)
    && forall j :: 0 <= j < |n.net| ==>
         && !(n.net[j].body.LookupReply? && n.net[j].to == x && n.net[j].body.master == x)
         && !(n.net[j].body.Remove? && n.net[j].from == x && j > k)
  }

  ghost predicate RemoveOk(n: Name, x: nat, k: nat) {
    Gone(n, x, k) || DirWaitsPast(n, x, k)
  }

  ghost predicate PacketOk(n: Name, k: nat)
    requires k < |n.net|
  {
    var p := n.net[k];
    match p.body
    case Lookup(num) =>
      p.from != n.dir && p.to == n.dir && WaitsFor(n, Lk(p.from, num), ForLookup)
      && forall j :: k < j < |n.net| ==> !(n.net[j].body.Remove? && n.net[j].from == p.from)
    case LookupReply(num, m) =>
      p.from == n.dir && p.to != n.dir && WaitsFor(n, Lk(p.to, num), ForLookup)
      && (m == p.to ==> OnRecord(n) == At(m))
    case Request(num) =>
      p.from != p.to && WaitsFor(n, Lk(p.from, num), ForRequest) && (p.from == n.dir ==> OnRecord(n) == At(p.to))
    case RequestReply(num, _) =>
      p.from != p.to
      && (WaitsFor(n, Lk(p.to, num), ForRequest) || (WaitsFor(n, Lk(p.to, num), ForLookup) && p.from == n.dir))
    case Remove =>
      p.from != n.dir && p.to == n.dir && OnRecord(n) == At(p.from)
      && RemoveOk(n, p.from, k)
    case NotifyReply(num) => p.from == n.dir && WaitsFor(n, Lk(p.to, num), ForNotify)
    case Notify(_) => false
  }

  ghost predicate WaitOk(n: Name, w: Lk)
    requires w in n.waits
  {
    w.node in n.rsbs && n.rsbs[w.node].active
  }

  ghost predicate OwnersDiffer(n: Name) {
    forall j, k :: 0 <= j < k < |n.net| && Owner(n.net[j]).Some? ==> Owner(n.net[j]) != Owner(n.net[k])
  }

  /** The name is in ordinary use. */
  ghost predicate Ordinary(n: Name) {
    && (forall x :: x in n.rsbs ==> RsbOk(n, x))
    && (forall k :: 0 <= k < |n.net| ==> PacketOk(n, k))
    && (forall w :: w in n.waits ==> WaitOk(n, w))
    && OwnersDiffer(n)
  }

  /** The name is being announced: only the creator knows it. */
  ghost predicate BeingAnnounced(n: Name) {
    exists x: nat, num: nat :: Announced(n, x, num)
  }

  ghost predicate Announced(n: Name, x: nat, num: nat) {
    && x != n.dir && n.creator == Some(x) && !n.open && n.waits == map[Lk(x, num) := ForNotify]
    && n.net == [Packet(x, n.dir, Notify(num))] && n.rsbs == map[x := Rsb(true, At(x), None, {})]
  }

  ghost predicate Inv(n: Name) {
    Ordinary(n) || BeingAnnounced(n)
  }

  lemma InvMeansOneMaster(n: Name)
    requires Inv(n)
    ensures OneMaster(n)
    ensures forall x :: IsMaster(n, x) && x != n.dir && Ordinary(n) ==> OnRecord(n) == At(x)
  {
  }

  // ----- asking for the master

  /** Everything but the support for an unknown master, which `AskMaster` is about to supply. */
  ghost predicate Almost(n: Name, x: nat) {
    && x in n.rsbs && n.rsbs[x].active
    && (n.rsbs[x].master == At(x) && x != n.dir ==> OnRecord(n) == At(x))
    && (x == n.dir ==> n.rsbs[x].master.At?)
    && ParkedOk(n, x)
    && (forall y :: y in n.rsbs && y != x ==> RsbOk(n, y))
    && (forall k :: 0 <= k < |n.net| ==> PacketOk(n, k))
    && (forall w :: w in n.waits ==> WaitOk(n, w))
    && OwnersDiffer(n)
  }

  /** A message that says nothing new to the messages before it. */
  lemma OthersUndisturbed(n: Name, m: Name, p: Packet, k: nat)
    requires k < |n.net| && PacketOk(n, k)
    requires m.dir == n.dir && m.net == n.net + [p] && OnRecord(m) == OnRecord(n)
    requires forall w :: w in n.waits ==> w in m.waits && m.waits[w] == n.waits[w]
    requires forall y :: IsMaster(m, y) ==> IsMaster(n, y)
    requires !p.body.Remove?
    requires p.body.LookupReply? && p.body.master == p.to ==>
      forall j :: 0 <= j < |n.net| ==> !(n.net[j].body.Remove? && n.net[j].from == p.to)
    ensures PacketOk(m, k)
  {
    assert m.net[k] == n.net[k];
    if n.net[k].body.Remove? {
      RemoveStays(n, m, p, n.net[k].from, k);
    }
  }

  lemma RemoveStays(n: Name, m: Name, p: Packet, x: nat, k: nat)
    requires k < |n.net| && n.net[k].body.Remove? && n.net[k].from == x
    requires RemoveOk(n, x, k)
    requires m.dir == n.dir && m.net == n.net + [p] && (IsMaster(m, x) ==> IsMaster(n, x))
    requires !p.body.Remove? && !(p.body.LookupReply? && p.to == x && p.body.master == x)
    ensures RemoveOk(m, x, k)
  {
    if DirWaitsPast(n, x, k) {
      PastStays(n, m, x, k);
    } else {
      assert Gone(m, x, k);
    }
  }

  lemma PastStays(n: Name, m: Name, x: nat, k: nat)
    requires DirWaitsPast(n, x, k) && m.dir == n.dir && n.net <= m.net
    ensures DirWaitsPast(m, x, k)
  {
    var j: nat :| Pending(n, x, k, j);
    assert Pending(m, x, k, j);
  }

  lemma OwnerWaits(n: Name, k: nat)
    requires k < |n.net| && PacketOk(n, k)
    ensures Owner(n.net[k]).Some? ==> Owner(n.net[k]).value in n.waits
    ensures Owner(n.net[k]).None? <==> n.net[k].body.Remove?
  {
  }

  lemma SendKeeps(n: Name, x: nat, r: Rsb, num: nat, kind: Kind, to: nat, body: Body)
    requires Almost(n, x) && Lk(x, num) !in n.waits && num !in n.rsbs[x].parked
    requires r.(first := n.rsbs[x].first) == n.rsbs[x]
    requires (kind == ForRequest && body == Request(num) && to != x && r.master == At(to))
          || (kind == ForLookup && body == Lookup(num) && to == n.dir && x != n.dir)
    requires r.master == Unknown ==> kind == ForLookup
    ensures Ordinary(Send(n, x, r, num, kind, to, body))
  {
    var m := Send(n, x, r, num, kind, to, body);
    var p := Packet(x, to, body);
    assert OnRecord(m) == OnRecord(n);
    forall k | 0 <= k < |m.net| ensures PacketOk(m, k) {
      if k < |n.net| {
        OthersUndisturbed(n, m, p, k);
      }
    }
    forall k | 0 <= k < |n.net| ensures Owner(n.net[k]) != Owner(p) {
      OwnerWaits(n, k);
    }
    assert OwnersDiffer(m);
    assert WaitsFor(m, Lk(x, num), kind);
    forall y | y in m.rsbs ensures RsbOk(m, y) {
      if y != x {
        RsbStays(n, m, y);
      }
    }
  }

  lemma RsbStays(n: Name, m: Name, y: nat)
    requires y in n.rsbs && RsbOk(n, y) && y in m.rsbs && m.rsbs[y] == n.rsbs[y] && m.dir == n.dir
    requires OnRecord(m) == OnRecord(n) || n.rsbs[y].master != At(y)
    requires forall num :: Lk(y, num) in n.waits <==> Lk(y, num) in m.waits
    requires forall num :: Lk(y, num) in n.waits ==> m.waits[Lk(y, num)] == n.waits[Lk(y, num)]
    ensures RsbOk(m, y)
  {
    if n.rsbs[y].master == Unknown && n.rsbs[y].parked == {} {
      var num :| WaitsFor(n, Lk(y, num), ForLookup);
      assert WaitsFor(m, Lk(y, num), ForLookup);
    }
  }

  lemma AskMasterKeeps(n: Name, x: nat, doubtful: bool, num: nat)
    requires Almost(n, x) && Lk(x, num) !in n.waits && num !in n.rsbs[x].parked
    requires doubtful ==> n.rsbs[x].master != At(x)
    ensures Ordinary(AskMaster(n, x, n.rsbs[x], doubtful, num))
  {
    var r := n.rsbs[x];
    var m := AskMaster(n, x, r, doubtful, num);
    if doubtful && r.master.At? {
      SendKeeps(n, x, r.(first := Some(num)), num, ForRequest, r.master.node, Request(num));
    } else if r.first.Some? && r.first != Some(num) {
      SameNet(n, m, x);
    } else if r.master == At(x) {
      SameNet(n, m, x);
    } else if r.master.At? {
      SendKeeps(n, x, r, num, ForRequest, r.master.node, Request(num));
    } else {
      SendKeeps(n, x, r.(first := Some(num)), num, ForLookup, n.dir, Lookup(num));
    }
  }

  /** A message stays in order when the records change, but no one becomes master or stops waiting. */
  lemma SamePacket(n: Name, m: Name, k: nat)
    requires k < |n.net| && PacketOk(n, k) && m.net == n.net && m.dir == n.dir && OnRecord(m) == OnRecord(n)
    requires forall w :: w in n.waits ==> w in m.waits && m.waits[w] == n.waits[w]
    requires forall y :: IsMaster(m, y) ==> IsMaster(n, y)
    ensures PacketOk(m, k)
  {
    var x := n.net[k].from;
    if n.net[k].body.Remove? {
      if DirWaitsPast(n, x, k) {
        PastStays(n, m, x, k);
      } else {
        assert Gone(m, x, k);
      }
    }
  }

  /** Only the record of `x` changes, and not its master. */
  lemma SameNet(n: Name, m: Name, x: nat)
    requires Almost(n, x) && x in m.rsbs && m == n.(rsbs := n.rsbs[x := m.rsbs[x]])
    requires m.rsbs[x].master == n.rsbs[x].master && m.rsbs[x].active && ParkedOk(m, x)
    requires m.rsbs[x].master == Unknown ==> m.rsbs[x].parked != {} || exists num :: WaitsFor(m, Lk(x, num), ForLookup)
    ensures Ordinary(m)
  {
    assert OnRecord(m) == OnRecord(n);
    forall k | 0 <= k < |m.net| ensures PacketOk(m, k) {
      SamePacket(n, m, k);
    }
    forall y | y in m.rsbs ensures RsbOk(m, y) {
      if y != x {
        RsbStays(n, m, y);
      }
    }
  }

  // ----- a message is taken from its channel

  function Taken(n: Name, i: nat): Name
    requires i < |n.net|
  {
    n.(net := Take(n.net, i))
  }

  /** Where message `k` of the shortened sequence was. */
  function Before(i: nat, k: nat): nat {
    if k < i then k else k + 1
  }

  lemma PastTaken(n: Name, i: nat, k: nat, x: nat)
    requires Oldest(n.net, i) && k < |n.net| - 1 && x != n.dir
    requires n.net[Before(i, k)] == Packet(x, n.dir, Remove)
    requires DirWaitsPast(n, x, Before(i, k)) && !DirAsked(n.net[i], n.dir, x)
    ensures DirWaitsPast(Taken(n, i), x, k)
  {
    var m := Taken(n, i);
    var j: nat :| Pending(n, x, Before(i, k), j);
    assert j != i;
    assert Pending(m, x, k, if j < i then j else j - 1);
  }

  lemma TakenPacket(n: Name, i: nat, k: nat)
    requires Ordinary(n) && Oldest(n.net, i) && k < |n.net| - 1
    ensures var p := n.net[Before(i, k)];
      (p.body.Remove? && DirAsked(n.net[i], n.dir, p.from)) || PacketOk(Taken(n, i), k)
  {
    var m := Taken(n, i);
    var b := Before(i, k);
    assert PacketOk(n, b) && m.net[k] == n.net[b];
    assert forall j :: 0 <= j < |m.net| ==> m.net[j] == n.net[Before(i, j)];
    var p := n.net[b];
    if p.body.Remove? && !DirAsked(n.net[i], n.dir, p.from) {
      if DirWaitsPast(n, p.from, b) {
        PastTaken(n, i, k, p.from);
      } else {
        assert Gone(m, p.from, k);
      }
    }
  }

  lemma TakenOwners(n: Name, i: nat)
    requires Ordinary(n) && i < |n.net|
    ensures OwnersDiffer(Taken(n, i))
    ensures Owner(n.net[i]).Some? ==> forall k :: 0 <= k < |n.net| - 1 ==> Owner(Taken(n, i).net[k]) != Owner(n.net[i])
  {
    var m := Taken(n, i);
    assert forall j :: 0 <= j < |m.net| ==> m.net[j] == n.net[Before(i, j)];
  }

  /** After a message other than the directory's own request, everything still holds. */
  lemma TakenOrdinary(n: Name, i: nat)
    requires Ordinary(n) && Oldest(n.net, i)
    requires forall x :: DirAsked(n.net[i], n.dir, x) ==>
      forall k :: 0 <= k < |n.net| ==> !(n.net[k].body.Remove? && n.net[k].from == x)
    ensures Ordinary(Taken(n, i))
  {
    var m := Taken(n, i);
    TakenOwners(n, i);
    forall k | 0 <= k < |m.net| ensures PacketOk(m, k) {
      TakenPacket(n, i, k);
    }
    forall y | y in m.rsbs ensures RsbOk(m, y) {
      RsbStays(n, m, y);
    }
  }

  // ----- the directory receives

  lemma LookupKeeps(n: Name, i: nat, rc: Answer)
    requires Ordinary(n) && Oldest(n.net, i) && n.net[i].body.Lookup?
    ensures Ordinary(Receive(Taken(n, i), n.net[i], rc))
  {
    var p := n.net[i];
    var s := Taken(n, i);
    var m := Receive(s, p, rc);
    TakenOrdinary(n, i);
    TakenOwners(n, i);
    assert PacketOk(n, i);
    NoRemoveLeft(n, i);
    var num := p.body.num;
    if n.dir !in n.rsbs {
      assert m == Reply(s.(rsbs := s.rsbs[n.dir := Rsb(false, At(p.from), None, {})]), n.dir, p.from,
        LookupReply(num, p.from));
      NewRecord(s, Rsb(false, At(p.from), None, {}));
      ReplyKeeps(s.(rsbs := s.rsbs[n.dir := Rsb(false, At(p.from), None, {})]), n.dir, p.from,
        LookupReply(num, p.from));
    } else {
      var r := n.rsbs[n.dir];
      assert RsbOk(n, n.dir);
      assert s.rsbs[n.dir := r] == s.rsbs;
      if r.master == At(n.dir) {
        Activated(s, n.dir, r.first);
        ReplyKeeps(s.(rsbs := s.rsbs[n.dir := r.(active := true)]), n.dir, p.from, RequestReply(num, rc));
      } else {
        ReplyKeeps(s, n.dir, p.from, LookupReply(num, r.master.node));
      }
    }
  }

  lemma NoRemoveLeft(n: Name, i: nat)
    requires Ordinary(n) && Oldest(n.net, i) && n.net[i].body.Lookup?
    ensures forall k :: 0 <= k < |n.net| - 1 ==>
      !(Taken(n, i).net[k].body.Remove? && Taken(n, i).net[k].from == n.net[i].from)
  {
    assert PacketOk(n, i);
    forall k | 0 <= k < |n.net| ensures !(n.net[k].body.Remove? && n.net[k].from == n.net[i].from) {
      assert PacketOk(n, k);
    }
    assert forall j :: 0 <= j < |n.net| - 1 ==> Taken(n, i).net[j] == n.net[Before(i, j)];
  }

  /** An answer, for a lock that is waiting and has no other message under way. */
  lemma ReplyKeeps(n: Name, x: nat, to: nat, body: Body)
    requires Ordinary(n) && x != to
    requires match body
      case LookupReply(num, m) =>
        x == n.dir && WaitsFor(n, Lk(to, num), ForLookup) && (m == to ==> OnRecord(n) == At(to) && NoRemove(n, to))
      case RequestReply(num, _) => WaitsFor(n, Lk(to, num), ForRequest)
        || (WaitsFor(n, Lk(to, num), ForLookup) && x == n.dir)
      case _ => false
    requires forall k :: 0 <= k < |n.net| ==> Owner(n.net[k]) != Owner(Packet(x, to, body))
    ensures Ordinary(Reply(n, x, to, body))
  {
    var p := Packet(x, to, body);
    var m := Reply(n, x, to, body);
    forall k | 0 <= k < |m.net| ensures PacketOk(m, k) {
      if k < |n.net| {
        OthersUndisturbed(n, m, p, k);
      }
    }
    forall y | y in m.rsbs ensures RsbOk(m, y) {
      RsbStays(n, m, y);
    }
  }

  ghost predicate NoRemove(n: Name, x: nat) {
    forall k :: 0 <= k < |n.net| ==> !(n.net[k].body.Remove? && n.net[k].from == x)
  }

  /** Where the directory has no record, nobody is master, and no message says so. */
  lemma NewRecord(n: Name, r: Rsb)
    requires Ordinary(n) && n.dir !in n.rsbs && r.master.At? && r.parked == {}
    ensures Ordinary(n.(rsbs := n.rsbs[n.dir := r]))
  {
    var m := n.(rsbs := n.rsbs[n.dir := r]);
    forall k | 0 <= k < |m.net| ensures PacketOk(m, k) {
      assert PacketOk(n, k);
    }
    forall y | y in m.rsbs ensures RsbOk(m, y) {
      if y != n.dir {
        RsbStays(n, m, y);
      }
    }
  }

  /** A master takes its record back into use. */
  lemma Activated(n: Name, x: nat, first: Option<nat>)
    requires Ordinary(n) && IsMaster(n, x)
    ensures Ordinary(n.(rsbs := n.rsbs[x := n.rsbs[x].(active := true, first := first)]))
  {
    var m := n.(rsbs := n.rsbs[x := n.rsbs[x].(active := true, first := first)]);
    assert OnRecord(m) == OnRecord(n);
    forall k | 0 <= k < |m.net| ensures PacketOk(m, k) {
      SamePacket(n, m, k);
    }
    forall y | y in m.rsbs ensures RsbOk(m, y) {
      if y != x {
        RsbStays(n, m, y);
      }
    }
  }

  // ----- a node is asked for a lock

  lemma RequestKeeps(n: Name, i: nat, rc: Answer)
    requires Ordinary(n) && Oldest(n.net, i) && n.net[i].body.Request?
    ensures Ordinary(Receive(Taken(n, i), n.net[i], rc))
  {
    var p := n.net[i];
    var x, num := p.to, p.body.num;
    var s := Taken(n, i);
    assert PacketOk(n, i);
    TakenOwners(n, i);
    if p.from == n.dir {
      var r := if x !in n.rsbs then Rsb(true, At(x), None, {})
               else n.rsbs[x].(active := true, master := At(x),
                               first := if n.rsbs[x].active || n.rsbs[x].master == At(x)
                                 then n.rsbs[x].first else None);
      DirRequestKeeps(n, i, r, rc);
    } else {
      TakenOrdinary(n, i);
      if x in n.rsbs && n.rsbs[x].master == At(x) {
        Activated(s, x, n.rsbs[x].first);
        ReplyKeeps(s.(rsbs := s.rsbs[x := n.rsbs[x].(active := true)]), x, p.from, RequestReply(num, rc));
      } else if x in n.rsbs {
        ReplyKeeps(s, x, p.from, RequestReply(num, NotMaster));
      } else if x == n.dir {
        NewRecord(s, Rsb(true, At(x), None, {}));
        ReplyKeeps(s.(rsbs := s.rsbs[x := Rsb(true, At(x), None, {})]), x, p.from, RequestReply(num, rc));
      } else {
        ReplyKeeps(s, x, p.from, RequestReply(num, Missing));
      }
    }
  }

  /** The directory's own request makes the node the master, even if its announcement that it gave up is still
      on the way: the directory will ignore that one. */
  lemma DirRequestKeeps(n: Name, i: nat, r: Rsb, rc: Answer)
    requires Ordinary(n) && Oldest(n.net, i) && n.net[i].body.Request? && n.net[i].from == n.dir
    requires r.active && r.master == At(n.net[i].to)
    requires r.parked == if n.net[i].to in n.rsbs then n.rsbs[n.net[i].to].parked else {}
    ensures var x := n.net[i].to;
      Ordinary(Reply(Taken(n, i).(rsbs := n.rsbs[x := r]), x, n.dir, RequestReply(n.net[i].body.num, rc)))
  {
    var x, num := n.net[i].to, n.net[i].body.num;
    var s := Taken(n, i);
    var m := Reply(s.(rsbs := n.rsbs[x := r]), x, n.dir, RequestReply(num, rc));
    var last := |m.net| - 1;
    assert PacketOk(n, i) && OnRecord(m) == OnRecord(n) == At(x);
    TakenOwners(n, i);
    forall k | 0 <= k < |m.net| ensures PacketOk(m, k) {
      if k < last {
        assert m.net[k] == n.net[Before(i, k)] && PacketOk(n, Before(i, k));
        if m.net[k].body.Remove? {
          assert Pending(m, x, k, last);
        } else {
          TakenPacket(n, i, k);
        }
      }
    }
    assert OwnersDiffer(m);
    forall y | y in m.rsbs ensures RsbOk(m, y) {
      if y != x {
        RsbStays(n, m, y);
      }
    }
  }

  // ----- a node is answered

  function Done(n: Name, i: nat, w: Lk): Name
    requires i < |n.net|
  {
    Taken(n, i).(waits := n.waits - {w})
  }

  lemma AnsweredAlmost(n: Name, i: nat, x: nat, num: nat)
    requires Ordinary(n) && Oldest(n.net, i) && !n.net[i].body.Request?
    requires Owner(n.net[i]) == Some(Lk(x, num))
    ensures Almost(Done(n, i, Lk(x, num)), x)
    ensures x in n.rsbs && num !in n.rsbs[x].parked && Lk(x, num) in n.waits
  {
    var m := Done(n, i, Lk(x, num));
    OwnerWaits(n, i);
    TakenOwners(n, i);
    forall k | 0 <= k < |m.net| ensures PacketOk(m, k) {
      TakenPacket(n, i, k);
      AnsweredPacket(Taken(n, i), m, Lk(x, num), k);
    }
    forall y | y in m.rsbs && y != x ensures RsbOk(m, y) {
      RsbStays(n, m, y);
    }
    assert RsbOk(n, x);
  }

  lemma AnsweredPacket(s: Name, m: Name, w: Lk, k: nat)
    requires k < |s.net| && PacketOk(s, k) && Owner(s.net[k]) != Some(w) && m == s.(waits := s.waits - {w})
    ensures PacketOk(m, k)
  {
    var x := s.net[k].from;
    if s.net[k].body.Remove? {
      if DirWaitsPast(s, x, k) {
        PastStays(s, m, x, k);
      } else {
        assert Gone(m, x, k);
      }
    }
  }

  /** A node changes its mind about the master. */
  lemma MindChanged(n: Name, x: nat, r: Rsb)
    requires Almost(n, x) && r.active && r.parked == n.rsbs[x].parked
    requires x == n.dir ==> r.master == n.rsbs[x].master
    requires r.master == At(x) && x != n.dir ==> OnRecord(n) == At(x)
    requires r.master == At(x) && n.rsbs[x].master != At(x) ==>
      forall k :: 0 <= k < |n.net| ==> n.net[k].body.Remove? && n.net[k].from == x ==> DirWaitsPast(n, x, k)
    ensures Almost(n.(rsbs := n.rsbs[x := r]), x)
  {
    var m := n.(rsbs := n.rsbs[x := r]);
    assert OnRecord(m) == OnRecord(n);
    forall k | 0 <= k < |m.net| ensures PacketOk(m, k) {
      assert PacketOk(n, k);
      var y := n.net[k].from;
      if n.net[k].body.Remove? {
        if DirWaitsPast(n, y, k) {
          PastStays(n, m, y, k);
        } else {
          assert Gone(m, y, k);
        }
      }
    }
    forall y | y in m.rsbs && y != x ensures RsbOk(m, y) {
      RsbStays(n, m, y);
    }
  }

  lemma LookupReplyKeeps(n: Name, i: nat, rc: Answer)
    requires Ordinary(n) && Oldest(n.net, i) && n.net[i].body.LookupReply?
    ensures Ordinary(Receive(Taken(n, i), n.net[i], rc))
  {
    var p := n.net[i];
    var x, num, m := p.to, p.body.num, p.body.master;
    var s := Done(n, i, Lk(x, num));
    assert PacketOk(n, i);
    AnsweredAlmost(n, i, x, num);
    if m == x {
      forall k | 0 <= k < |s.net| && s.net[k].body.Remove? && s.net[k].from == x ensures DirWaitsPast(s, x, k) {
        assert s.net[k] == n.net[Before(i, k)] && PacketOk(n, Before(i, k));
        PastTaken(n, i, k, x);
        PastStays(Taken(n, i), s, x, k);
      }
    }
    var r := n.rsbs[x].(master := At(m));
    var r1 := if m == x then r.(first := None) else r;
    MindChanged(s, x, r1);
    var t := s.(rsbs := s.rsbs[x := r1]);
    AskMasterKeeps(t, x, false, num);
    AskOverwrites(s, x, r1, num);
  }

  /** Recording `r` first makes no difference. */
  lemma AskOverwrites(n: Name, x: nat, r: Rsb, num: nat)
    ensures AskMaster(n.(rsbs := n.rsbs[x := r]), x, r, false, num) == AskMaster(n, x, r, false, num)
  {
    Overwrite(n.rsbs, x, r, r);
    Overwrite(n.rsbs, x, r, r.(parked := r.parked + {num}));
    Overwrite(n.rsbs, x, r, r.(master := At(x)));
    Overwrite(n.rsbs, x, r, r.(first := Some(num)));
  }

  lemma Overwrite<T>(m: map<nat, T>, x: nat, a: T, b: T)
    ensures m[x := a][x := b] == m[x := b]
  {
  }

  lemma RequestReplyKeeps(n: Name, i: nat, rc: Answer)
    requires Ordinary(n) && Oldest(n.net, i) && n.net[i].body.RequestReply?
    ensures Ordinary(Receive(Taken(n, i), n.net[i], rc))
  {
    var p := n.net[i];
    var x, num := p.to, p.body.num;
    assert PacketOk(n, i);
    AnsweredAlmost(n, i, x, num);
    var r := if WaitsFor(n, Lk(x, num), ForLookup) then n.rsbs[x].(master := At(p.from)) else n.rsbs[x];
    if p.body.rc == Served || p.body.rc == Again {
      ServedKeeps(n, i, x, num, r);
    } else {
      RefusedKeeps(Done(n, i, Lk(x, num)), x, num, r);
    }
  }

  lemma ServedKeeps(n: Name, i: nat, x: nat, num: nat, r: Rsb)
    requires Ordinary(n) && i < |n.net| && x in n.rsbs && Lk(x, num) in n.waits && Almost(Done(n, i, Lk(x, num)), x)
    requires r.active && r.parked == n.rsbs[x].parked
    requires r.master == n.rsbs[x].master || (r.master.At? && r.master != At(x) && x != n.dir)
    requires WaitsFor(n, Lk(x, num), ForLookup) ==> r.master.At?
    ensures var s := Done(n, i, Lk(x, num)); Ordinary(s.(rsbs := s.rsbs[x := r.(first := None)]))
  {
    var s := Done(n, i, Lk(x, num));
    var r1 := r.(first := None);
    MindChanged(s, x, r1);
    var t := s.(rsbs := s.rsbs[x := r1]);
    assert RsbOk(n, x);
    if r1.master == Unknown && r1.parked == {} {
      var num' :| WaitsFor(n, Lk(x, num'), ForLookup);
      assert WaitsFor(t, Lk(x, num'), ForLookup);
    }
    SameNet(t, t, x);
  }

  lemma RefusedKeeps(s: Name, x: nat, num: nat, r: Rsb)
    requires Almost(s, x) && Lk(x, num) !in s.waits && num !in s.rsbs[x].parked
    requires r.active && r.parked == s.rsbs[x].parked
    requires r.master == s.rsbs[x].master || (r.master.At? && r.master != At(x) && x != s.dir)
    ensures var r1 := if s.dir != x && r.master != At(x) then r.(master := Unknown) else r;
      var u := AskMaster(s, x, r1, false, num);
      && Ordinary(u) && x in u.rsbs
      && (u.rsbs[x].master == At(x) ==> Ordinary(u.(rsbs := u.rsbs[x := u.rsbs[x].(first := None)])))
  {
    var r1 := if s.dir != x && r.master != At(x) then r.(master := Unknown) else r;
    MindChanged(s, x, r1);
    AskMasterKeeps(s.(rsbs := s.rsbs[x := r1]), x, false, num);
    AskOverwrites(s, x, r1, num);
    var u := AskMaster(s, x, r1, false, num);
    if u.rsbs[x].master == At(x) {
      Activated(u, x, None);
    }
  }

  // ----- the directory forgets

  lemma RemoveKeeps(n: Name, i: nat, rc: Answer)
    requires Ordinary(n) && Oldest(n.net, i) && n.net[i].body.Remove?
    ensures Ordinary(Receive(Taken(n, i), n.net[i], rc))
  {
    TakenOrdinary(n, i);
    var p := n.net[i];
    var s := Taken(n, i);
    assert PacketOk(n, i);
    if n.dir in n.rsbs && !n.rsbs[n.dir].active {
      DirIdle(n, p.from, i);
      assert forall k :: 0 <= k < |s.net| ==> s.net[k] == n.net[Before(i, k)];
      forall k | 0 <= k < |s.net| && s.net[k].body.Remove? ensures s.net[k].from != p.from {
        assert PacketOk(n, Before(i, k));
      }
      Forgotten(s, p.from);
    }
  }

  /** While the directory's record lies unused, the directory has asked nobody. */
  lemma DirIdle(n: Name, x: nat, k: nat)
    requires Ordinary(n) && n.dir in n.rsbs && !n.rsbs[n.dir].active
    ensures !DirWaitsPast(n, x, k)
    ensures forall j :: 0 <= j < |n.net| ==> !(n.net[j].body.Request? && n.net[j].from == n.dir)
  {
    forall j: nat | j < |n.net| ensures !Pending(n, x, k, j) && !(n.net[j].body.Request? && n.net[j].from == n.dir) {
      OwnerWaits(n, j);
      if Owner(n.net[j]).Some? {
        assert WaitOk(n, Owner(n.net[j]).value);
      }
    }
  }

  lemma Forgotten(n: Name, x: nat)
    requires Ordinary(n) && n.dir in n.rsbs && !n.rsbs[n.dir].active && OnRecord(n) == At(x) && NoRemove(n, x)
    requires x != n.dir ==> !IsMaster(n, x)
    requires forall j :: 0 <= j < |n.net| ==>
      !(n.net[j].body.LookupReply? && n.net[j].to == x && n.net[j].body.master == x)
    ensures Ordinary(n.(rsbs := n.rsbs - {n.dir}))
  {
    var m := n.(rsbs := n.rsbs - {n.dir});
    DirIdle(n, x, 0);
    forall k | 0 <= k < |m.net| ensures PacketOk(m, k) {
      assert PacketOk(n, k);
    }
    forall y | y in m.rsbs ensures RsbOk(m, y) {
      assert RsbOk(n, y);
      RsbStays(n, m, y);
    }
    forall w | w in m.waits ensures WaitOk(m, w) {
      assert WaitOk(n, w);
    }
  }

  lemma TossKeeps(n: Name, x: nat)
    requires Ordinary(n) && Possible(n, Toss(x))
    ensures Ordinary(Next(n, Toss(x)))
  {
    var m := Next(n, Toss(x));
    assert OnRecord(m) == OnRecord(n);
    forall k | 0 <= k < |m.net| ensures PacketOk(m, k) {
      SamePacket(n, m, k);
    }
    forall w | w in m.waits ensures WaitOk(m, w) {
      assert WaitOk(n, w) && w.node != x;
    }
    forall y | y in m.rsbs ensures RsbOk(m, y) {
      assert RsbOk(n, y);
      if y != x {
        RsbStays(n, m, y);
      }
    }
  }

  lemma ShrinkKeeps(n: Name, x: nat)
    requires Ordinary(n) && Possible(n, Shrink(x))
    ensures Ordinary(Next(n, Shrink(x)))
  {
    if x == n.dir {
      forall k | 0 <= k < |n.net| ensures !(n.net[k].body.Remove? && n.net[k].from == x) {
        assert PacketOk(n, k);
      }
      forall k | 0 <= k < |n.net| ensures !(n.net[k].body.LookupReply? && n.net[k].to == x) {
        assert PacketOk(n, k);
      }
      Forgotten(n, x);
    } else {
      ShrinkElsewhere(n, x);
    }
  }

  /** A node that gives up a master record tells the directory. */
  lemma ShrinkElsewhere(n: Name, x: nat)
    requires Ordinary(n) && Possible(n, Shrink(x)) && x != n.dir
    ensures Ordinary(Next(n, Shrink(x)))
  {
    var m := Next(n, Shrink(x));
    assert OnRecord(m) == OnRecord(n) && RsbOk(n, x);
    forall j: nat | j < |n.net| && Owner(n.net[j]).Some? ensures Owner(n.net[j]).value.node != x {
      OwnerWaits(n, j);
      assert WaitOk(n, Owner(n.net[j]).value);
    }
    forall k | 0 <= k < |m.net| ensures PacketOk(m, k) {
      if k < |n.net| {
        assert PacketOk(n, k);
        ShrunkPacket(n, m, x, k);
      } else {
        assert Gone(m, x, k);
      }
    }
    assert OwnersDiffer(m);
    forall w | w in m.waits ensures WaitOk(m, w) {
      assert WaitOk(n, w);
    }
    forall y | y in m.rsbs ensures RsbOk(m, y) {
      RsbStays(n, m, y);
    }
  }

  lemma ShrunkPacket(n: Name, m: Name, x: nat, k: nat)
    requires k < |n.net| && PacketOk(n, k) && x != n.dir && m.dir == n.dir && m.waits == n.waits
    requires OnRecord(m) == OnRecord(n) && x in n.rsbs && m.rsbs == n.rsbs - {x}
    requires m.net == if IsMaster(n, x) then n.net + [Packet(x, n.dir, Remove)] else n.net
    requires forall j :: 0 <= j < |n.net| && Owner(n.net[j]).Some? ==> Owner(n.net[j]).value.node != x
    ensures PacketOk(m, k)
  {
    var y := n.net[k].from;
    assert m.net[k] == n.net[k];
    if n.net[k].body.Remove? {
      if DirWaitsPast(n, y, k) {
        PastStays(n, m, y, k);
      } else {
        assert OnRecord(n) == At(y);
        assert Gone(n, y, k);
        assert Gone(m, y, k);
      }
    }
  }

  // ----- local requests

  lemma AskKeeps(n: Name, x: nat, num: nat)
    requires Ordinary(n) && Possible(n, Ask(x, num))
    ensures Ordinary(Next(n, Ask(x, num)))
  {
    var (r, doubtful) := FindLocal(n, x);
    if x !in n.rsbs && x == n.dir {
      NewRecord(n, r);
    } else if x !in n.rsbs {
      NewVisitor(n, x, r);
    } else {
      assert RsbOk(n, x);
      MindUnchanged(n, x, r);
    }
    var t := n.(rsbs := n.rsbs[x := r]);
    assert Almost(t, x);
    AskMasterKeeps(t, x, doubtful, num);
    AskStartsFrom(n, x, r, doubtful, num);
  }

  lemma AskStartsFrom(n: Name, x: nat, r: Rsb, doubtful: bool, num: nat)
    ensures AskMaster(n.(rsbs := n.rsbs[x := r]), x, r, doubtful, num) == AskMaster(n, x, r, doubtful, num)
  {
    AskOverwrites(n, x, r, num);
    Overwrite(n.rsbs, x, r, r.(first := Some(num)));
  }

  lemma NewVisitor(n: Name, x: nat, r: Rsb)
    requires Ordinary(n) && x !in n.rsbs && x != n.dir && r.active && r.master == Unknown && r.parked == {}
    ensures Almost(n.(rsbs := n.rsbs[x := r]), x)
  {
    var m := n.(rsbs := n.rsbs[x := r]);
    assert OnRecord(m) == OnRecord(n);
    forall k | 0 <= k < |m.net| ensures PacketOk(m, k) {
      SamePacket(n, m, k);
    }
    forall y | y in m.rsbs && y != x ensures RsbOk(m, y) {
      RsbStays(n, m, y);
    }
  }

  lemma MindUnchanged(n: Name, x: nat, r: Rsb)
    requires Ordinary(n) && x in n.rsbs && r.active && r.master == n.rsbs[x].master && r.parked <= n.rsbs[x].parked
    ensures Almost(n.(rsbs := n.rsbs[x := r]), x)
  {
    var m := n.(rsbs := n.rsbs[x := r]);
    assert OnRecord(m) == OnRecord(n) && RsbOk(n, x);
    forall k | 0 <= k < |m.net| ensures PacketOk(m, k) {
      SamePacket(n, m, k);
    }
    forall y | y in m.rsbs && y != x ensures RsbOk(m, y) {
      RsbStays(n, m, y);
    }
    forall w | w in m.waits ensures WaitOk(m, w) {
      assert WaitOk(n, w);
    }
  }

  lemma UnparkKeeps(n: Name, x: nat, num: nat, alone: bool)
    requires Ordinary(n) && Possible(n, Unpark(x, num, alone))
    ensures Ordinary(Next(n, Unpark(x, num, alone)))
  {
    var r := n.rsbs[x].(parked := n.rsbs[x].parked - {num});
    var r1 := if alone then r.(first := Some(num)) else r;
    assert RsbOk(n, x);
    MindUnchanged(n, x, r1);
    AskMasterKeeps(n.(rsbs := n.rsbs[x := r1]), x, false, num);
    AskOverwrites(n, x, r1, num);
  }

  // ----- a new name is announced

  lemma AskNewKeeps(n: Name, x: nat, num: nat)
    requires Inv(n) && Possible(n, AskNew(x, num))
    ensures Inv(Next(n, AskNew(x, num)))
  {
    var m := Next(n, AskNew(x, num));
    if x == n.dir {
      assert Ordinary(m);
    } else {
      assert n.waits[Lk(x, num) := ForNotify] == map[Lk(x, num) := ForNotify];
      assert Announced(m, x, num);
    }
  }

  lemma AnnouncedKeeps(n: Name, x: nat, num: nat, e: Event)
    requires Announced(n, x, num) && Possible(n, e) && Gate(n, e)
    ensures Inv(Next(n, e))
  {
    assert n.net[0].body.Notify? && Lk(x, num) in n.waits;
    match e
    case Ask(y, num') =>
      assert n.rsbs[x := n.rsbs[x]] == n.rsbs;
      assert Next(n, e) == n;
    case Deliver(i, rc) =>
      assert i == 0 && Take(n.net, 0) == [];
      NoticeArrives(n, x, num);
    case _ =>
  }

  /** From then on the name is like any other. */
  lemma NoticeArrives(n: Name, x: nat, num: nat)
    requires Announced(n, x, num)
    ensures Ordinary(ReceiveNotify(n.(net := []), x, num))
  {
    var m := ReceiveNotify(n.(net := []), x, num);
    assert WaitsFor(m, Lk(x, num), ForNotify);
    assert m.net == [Packet(n.dir, x, NotifyReply(num))];
  }

  lemma NotifyReplyKeeps(n: Name, i: nat, rc: Answer)
    requires Ordinary(n) && Oldest(n.net, i) && n.net[i].body.NotifyReply?
    ensures Ordinary(Receive(Taken(n, i), n.net[i], rc))
  {
    var x, num := n.net[i].to, n.net[i].body.num;
    var m := Done(n, i, Lk(x, num));
    assert PacketOk(n, i);
    AnsweredAlmost(n, i, x, num);
    assert RsbOk(n, x);
    if m.rsbs[x].master == Unknown && m.rsbs[x].parked == {} {
      var num' :| WaitsFor(n, Lk(x, num'), ForLookup);
      assert WaitsFor(m, Lk(x, num'), ForLookup);
    }
    SameNet(m, m, x);
  }

  // ----- over every run

  lemma StepKeepsInv(n: Name, e: Event)
    requires Inv(n) && Possible(n, e) && Gate(n, e)
    ensures Inv(Next(n, e))
  {
    if e.AskNew? {
      AskNewKeeps(n, e.node, e.num);
    } else if !Ordinary(n) {
      var x, num :| Announced(n, x, num);
      AnnouncedKeeps(n, x, num, e);
    } else {
      match e
      case Ask(x, num) => AskKeeps(n, x, num);
      case Open => OpenKeeps(n);
      case Unpark(x, num, alone) => UnparkKeeps(n, x, num, alone);
      case Toss(x) => TossKeeps(n, x);
      case Shrink(x) => ShrinkKeeps(n, x);
      case Deliver(i, rc) => DeliverKeeps(n, i, rc);
    }
  }

  lemma OpenKeeps(n: Name)
    requires Ordinary(n)
    ensures Ordinary(n.(open := true))
  {
    var m := n.(open := true);
    forall k | 0 <= k < |m.net| ensures PacketOk(m, k) {
      SamePacket(n, m, k);
    }
    forall y | y in m.rsbs ensures RsbOk(m, y) {
      RsbStays(n, m, y);
    }
    forall w | w in m.waits ensures WaitOk(m, w) {
      assert WaitOk(n, w);
    }
  }

  lemma DeliverKeeps(n: Name, i: nat, rc: Answer)
    requires Ordinary(n) && Oldest(n.net, i)
    ensures Ordinary(Receive(Taken(n, i), n.net[i], rc))
  {
    assert PacketOk(n, i);
    match n.net[i].body
    case Lookup(_) => LookupKeeps(n, i, rc);
    case LookupReply(_, _) => LookupReplyKeeps(n, i, rc);
    case Request(_) => RequestKeeps(n, i, rc);
    case RequestReply(_, _) => RequestReplyKeeps(n, i, rc);
    case Remove => RemoveKeeps(n, i, rc);
    case NotifyReply(_) => NotifyReplyKeeps(n, i, rc);
  }

  lemma {:induction false} RunInv(ns: seq<Name>, es: seq<Event>, k: nat)
    requires IsRun(ns, es) && k <= |es|
    ensures Inv(ns[k])
  {
    if k > 0 {
      RunInv(ns, es, k - 1);
      assert Step(ns[k - 1], es[k - 1], ns[k]);
      StepKeepsInv(ns[k - 1], es[k - 1]);
    }
  }

  /** At no moment of any run do two nodes believe they are the master. */
  lemma NeverTwoMasters(ns: seq<Name>, es: seq<Event>, k: nat)
    requires IsRun(ns, es) && k <= |es|
    ensures OneMaster(ns[k])
  {
    RunInv(ns, es, k);
    InvMeansOneMaster(ns[k]);
  }

  /** Once the announcement has reached the directory, a master is always on record there. */
  lemma DirectoryKnowsTheMaster(ns: seq<Name>, es: seq<Event>, k: nat, x: nat)
    requires IsRun(ns, es) && k <= |es| && !NoticeUnderWay(ns[k]) && IsMaster(ns[k], x)
    ensures OnRecord(ns[k]) == At(x)
  {
    RunInv(ns, es, k);
    NoNoticeIsOrdinary(ns[k]);
    assert RsbOk(ns[k], x);
  }

  lemma NoNoticeIsOrdinary(n: Name)
    requires Inv(n)
    ensures NoticeUnderWay(n) <==> !Ordinary(n)
  {
    if BeingAnnounced(n) {
      var x, num :| Announced(n, x, num);
      assert n.net[0].body.Notify?;
      assert !PacketOk(n, 0);
    } else {
      forall i | 0 <= i < |n.net| ensures !n.net[i].body.Notify? {
        assert PacketOk(n, i);
      }
    }
  }

  // ----- the rule about new names is exact

  /** What may follow a state, by the rule. */
  ghost predicate Continues(n: Name, ns: seq<Name>, es: seq<Event>) {
    && |ns| == |es| + 1 && ns[0] == n
    && forall i :: 0 <= i < |es| ==> Step(ns[i], es[i], ns[i + 1])
  }

  ghost predicate StaysOneMaster(n: Name) {
    forall ns, es :: Continues(n, ns, es) ==> OneMaster(ns[|es|])
  }

  lemma {:induction false} ContinuesWell(n: Name, ns: seq<Name>, es: seq<Event>, k: nat)
    requires Inv(n) && Continues(n, ns, es) && k <= |es|
    ensures Inv(ns[k])
  {
    if k > 0 {
      ContinuesWell(n, ns, es, k - 1);
      assert Step(ns[k - 1], es[k - 1], ns[k]);
      StepKeepsInv(ns[k - 1], es[k - 1]);
    }
  }

  /** In every state of every run, it is safe that a node asks for the name exactly if the rule lets it: it is
      the creator, or no announcement is on its way. */
  lemma AskIsSafeExactly(ns: seq<Name>, es: seq<Event>, k: nat, y: nat, num: nat)
    requires IsRun(ns, es) && k <= |es| && Possible(ns[k], Ask(y, num))
    ensures StaysOneMaster(Next(ns[k], Ask(y, num))) <==> ns[k].creator == Some(y) || !NoticeUnderWay(ns[k])
  {
    RunInv(ns, es, k);
    var n := ns[k];
    var m := Next(n, Ask(y, num));
    if Gate(n, Ask(y, num)) {
      StepKeepsInv(n, Ask(y, num));
      forall ms, fs | Continues(m, ms, fs) ensures OneMaster(ms[|fs|]) {
        ContinuesWell(m, ms, fs, |fs|);
        InvMeansOneMaster(ms[|fs|]);
      }
    } else {
      NoNoticeIsOrdinary(n);
      var x, c :| Announced(n, x, c);
      SecondMasterArises(n, x, c, y, num);
    }
  }

  const AND_THEN: seq<Event> := [Deliver(1, Served), Deliver(1, Served)]

  /** The directory answers the early question before it hears of the creator.  If it asks itself, it is master
      at once. */
  lemma SecondMasterArises(n: Name, x: nat, c: nat, y: nat, num: nat)
    requires Announced(n, x, c) && y != x
    ensures var m := Next(n, Ask(y, num));
      exists ms: seq<Name>, fs: seq<Event> :: Continues(m, ms, fs) && fs <= AND_THEN && !OneMaster(ms[|fs|])
  {
    var m := Next(n, Ask(y, num));
    if y == n.dir {
      assert IsMaster(m, x) && IsMaster(m, y) && !OneMaster(m);
      assert Continues(m, [m], []) && [] <= AND_THEN;
    } else {
      var m2 := Answered(n, x, c, y, num);
      var m3 := Told(n, x, c, y, num);
      EarlyAnswer(n, x, c, y, num);
      EarlyTold(n, x, c, y, num);
      assert IsMaster(m3, x) && IsMaster(m3, y) && !OneMaster(m3);
      assert Continues(m, [m, m2, m3], AND_THEN);
    }
  }

  /** The directory has answered. */
  function Answered(n: Name, x: nat, c: nat, y: nat, num: nat): Name {
    n.(rsbs := map[x := Rsb(true, At(x), None, {}), y := Rsb(true, Unknown, Some(num), {}),
      n.dir := Rsb(false, At(y), None, {})],
       waits := map[Lk(x, c) := ForNotify, Lk(y, num) := ForLookup],
       net := [Packet(x, n.dir, Notify(c)), Packet(n.dir, y, LookupReply(num, y))])
  }

  /** The answer has arrived. */
  function Told(n: Name, x: nat, c: nat, y: nat, num: nat): Name {
    n.(rsbs := map[x := Rsb(true, At(x), None, {}), y := Rsb(true, At(y), None, {}),
      n.dir := Rsb(false, At(y), None, {})],
       waits := map[Lk(x, c) := ForNotify],
       net := [Packet(x, n.dir, Notify(c))])
  }

  lemma EarlyAnswer(n: Name, x: nat, c: nat, y: nat, num: nat)
    requires Announced(n, x, c) && y != x && y != n.dir
    ensures Step(Next(n, Ask(y, num)), AND_THEN[0], Answered(n, x, c, y, num))
  {
    var m := Next(n, Ask(y, num));
    assert m.net == [Packet(x, n.dir, Notify(c)), Packet(y, n.dir, Lookup(num))];
    assert Take(m.net, 1) == [Packet(x, n.dir, Notify(c))];
  }

  lemma EarlyTold(n: Name, x: nat, c: nat, y: nat, num: nat)
    requires Announced(n, x, c) && y != x && y != n.dir
    ensures Step(Answered(n, x, c, y, num), AND_THEN[1], Told(n, x, c, y, num))
  {
    var m := Answered(n, x, c, y, num);
    assert Take(m.net, 1) == [Packet(x, n.dir, Notify(c))];
    assert m.waits - {Lk(y, num)} == map[Lk(x, c) := ForNotify];
  }

  ghost predicate IsUnruledRun(ns: seq<Name>, es: seq<Event>) {
    && |ns| == |es| + 1 && ns[0] == Unused(ns[0].dir)
    && forall i :: 0 <= i < |es| ==> Possible(ns[i], es[i]) && ns[i + 1] == Next(ns[i], es[i])
  }

  /** For every directory, creator and early asker: two masters, at most two messages later. */
  lemma TooEarlyMeansTwoMasters(dir: nat, x: nat, c: nat, y: nat, num: nat)
    requires x != dir && y != x
    ensures exists ns: seq<Name>, es: seq<Event> ::
      IsUnruledRun(ns, es) && ns[0].dir == dir && [AskNew(x, c), Ask(y, num)] <= es
      && es[2..] <= AND_THEN && !OneMaster(ns[|es|])
  {
    var n0 := Unused(dir);
    var n1 := Next(n0, AskNew(x, c));
    assert Announced(n1, x, c);
    var m := Next(n1, Ask(y, num));
    SecondMasterArises(n1, x, c, y, num);
    var ms: seq<Name>, fs: seq<Event> :| Continues(m, ms, fs) && fs <= AND_THEN && !OneMaster(ms[|fs|]);
    var ns, es := [n0, n1] + ms, [AskNew(x, c), Ask(y, num)] + fs;
    forall i | 0 <= i < |es| ensures Possible(ns[i], es[i]) && ns[i + 1] == Next(ns[i], es[i]) {
      if i >= 2 {
        assert Step(ms[i - 2], fs[i - 2], ms[i - 1]);
      }
    }
    assert es[2..] == fs && IsUnruledRun(ns, es) && !OneMaster(ns[|es|]);
  }
}

/** The other direction of what the directory knows: whoever is on record is the master, or is about to become it,
    or has just given up; and what each message to the directory or to a master is answered. */
module DirectoryRecord {
  import opened Evolution
  import opened Directory
  import opened DirectorySafety

  // ----- why somebody is on record

  ghost predicate TellsSo(p: Packet, dir: nat, x: nat) {
    p.from == dir && p.to == x && p.body.LookupReply? && p.body.master == x
  }

  ghost predicate IsRemove(p: Packet, dir: nat, x: nat) {
    p.from == x && p.to == dir && p.body.Remove?
  }

  /** A message that says that `x` is the master is on its way to `x`, behind message `k`. */
  ghost predicate ToldAfter(n: Name, x: nat, k: int) {
    exists j :: k < j < |n.net| && 0 <= j && TellsSo(n.net[j], n.dir, x)
  }

  /** The message by which `x` gives up is on its way, behind message `k`. */
  ghost predicate GivesUpAfter(n: Name, x: nat, k: int) {
    exists j :: k < j < |n.net| && 0 <= j && IsRemove(n.net[j], n.dir, x)
  }

  /** The directory's own request to `x` is on its way. */
  ghost predicate Summoned(n: Name, x: nat) {
    exists j :: 0 <= j < |n.net| && DirAsked(n.net[j], n.dir, x)
  }

  ghost predicate Backed(n: Name, x: nat) {
    IsMaster(n, x) || ToldAfter(n, x, -1) || Summoned(n, x)
  }

  /** The record is true, or will be when the messages under way have arrived. */
  ghost predicate RecordTrue(n: Name) {
    forall x: nat :: x != n.dir && OnRecord(n) == At(x) ==> Backed(n, x) || GivesUpAfter(n, x, -1)
  }

  /** Who has answered the directory is master, unless it has given up since. */
  ghost predicate AnswerOk(n: Name, k: nat)
    requires k < |n.net|
  {
    var p := n.net[k];
    p.body.RequestReply? && p.to == n.dir && OnRecord(n) == At(p.from) ==>
      Backed(n, p.from) || GivesUpAfter(n, p.from, k)
  }

  /** The message makes the node believe in another master than itself. */
  predicate Misleads(n: Name, p: Packet) {
    p.from == n.dir
    && match p.body
       case LookupReply(_, m) => m != p.to
       case RequestReply(num, _) => WaitsFor(n, Lk(p.to, num), ForLookup)
       case _ => false
  }

  /** ... but if the node is on record now, it is told so later. */
  ghost predicate NewsOk(n: Name, k: nat)
    requires k < |n.net|
  {
    Misleads(n, n.net[k]) && OnRecord(n) == At(n.net[k].to) ==> ToldAfter(n, n.net[k].to, k)
  }

  ghost predicate Known(n: Name) {
    && RecordTrue(n)
    && (forall k :: 0 <= k < |n.net| ==> AnswerOk(n, k) && NewsOk(n, k))
  }

  // ----- what a step leaves of that

  function Remaining(q: seq<Packet>, i: nat): seq<Packet> {
    if i < |q| then Take(q, i) else q
  }

  /** Message `i`, if there is one, is taken, others may be sent, and the record stays as it is. */
  ghost predicate Moves(n: Name, m: Name, i: nat) {
    && m.dir == n.dir && OnRecord(m) == OnRecord(n) && Remaining(n.net, i) <= m.net
    && (i < |n.net| ==> Oldest(n.net, i))
    && (forall y: nat :: IsMaster(n, y) ==> IsMaster(m, y) || Excused(m, y))
    && (forall k :: 0 <= k < |n.net| && k != i && Misleads(m, n.net[k]) ==> Misleads(n, n.net[k]))
    && (i < |n.net| ==> Consumed(n, m, n.net[i]))
  }

  /** Who is no longer master has a message on the way to it that says it is, or has just given up. */
  ghost predicate Excused(m: Name, y: nat) {
    ToldAfter(m, y, -1) || (m.net != [] && IsRemove(m.net[|m.net| - 1], m.dir, y)) || OnRecord(m) != At(y)
  }

  /** What message `p` promised is kept. */
  ghost predicate Consumed(n: Name, m: Name, p: Packet) {
    && (TellsSo(p, n.dir, p.to) ==> IsMaster(m, p.to))
    && (DirAsked(p, n.dir, p.to) ==> IsMaster(m, p.to))
    && (IsRemove(p, n.dir, p.from) ==>
          OnRecord(m) != At(p.from) || Backed(m, p.from) || GivesUpAfter(m, p.from, -1))
  }

  lemma RemainingAt(q: seq<Packet>, i: nat, k: nat)
    requires k < |q| && k != i
    ensures var j := if k < i then k else k - 1; j < |Remaining(q, i)| && Remaining(q, i)[j] == q[k]
  {
  }

  lemma StillTold(n: Name, m: Name, i: nat, x: nat, k: int)
    requires Moves(n, m, i) && ToldAfter(n, x, k) && -1 <= k < |n.net| && k != i
    requires k >= 0 ==> n.net[k].from == n.dir && n.net[k].to == x
    ensures IsMaster(m, x) || ToldAfter(m, x, if k < i then k else k - 1)
    ensures k >= 0 ==> ToldAfter(m, x, if k < i then k else k - 1)
  {
    var j :| k < j < |n.net| && 0 <= j && TellsSo(n.net[j], n.dir, x);
    if j != i {
      RemainingAt(n.net, i, j);
      var j' := if j < i then j else j - 1;
      assert TellsSo(m.net[j'], m.dir, x);
    }
  }

  lemma StillGivesUp(n: Name, m: Name, i: nat, x: nat, k: int)
    requires Moves(n, m, i) && GivesUpAfter(n, x, k) && -1 <= k < |n.net| && k != i
    requires k >= 0 ==> n.net[k].from == x && n.net[k].to == n.dir
    ensures GivesUpAfter(m, x, if k < i then k else k - 1)
            || (k == -1 && (OnRecord(m) != At(x) || Backed(m, x) || GivesUpAfter(m, x, -1)))
  {
    var j :| k < j < |n.net| && 0 <= j && IsRemove(n.net[j], n.dir, x);
    if j != i {
      RemainingAt(n.net, i, j);
      var j' := if j < i then j else j - 1;
      assert IsRemove(m.net[j'], m.dir, x);
    }
  }

  lemma StillBacked(n: Name, m: Name, i: nat, x: nat, k: nat)
    requires Moves(n, m, i) && Backed(n, x) && OnRecord(n) == At(x)
    ensures Backed(m, x) || (m.net != [] && IsRemove(m.net[|m.net| - 1], m.dir, x))
  {
    if ToldAfter(n, x, -1) {
      StillTold(n, m, i, x, -1);
    } else if Summoned(n, x) {
      var j :| 0 <= j < |n.net| && DirAsked(n.net[j], n.dir, x);
      if j != i {
        RemainingAt(n.net, i, j);
        assert DirAsked(m.net[if j < i then j else j - 1], m.dir, x);
      }
    }
  }

  /** The messages that were there before are in order after the step. */
  lemma OldPackets(n: Name, m: Name, i: nat, k: nat)
    requires Known(n) && Moves(n, m, i) && k < |n.net| && k != i
    ensures var j := if k < i then k else k - 1; j < |m.net| && AnswerOk(m, j) && NewsOk(m, j)
  {
    var j := if k < i then k else k - 1;
    RemainingAt(n.net, i, k);
    var p := n.net[k];
    assert m.net[j] == p && AnswerOk(n, k) && NewsOk(n, k);
    if p.body.RequestReply? && p.to == n.dir && OnRecord(n) == At(p.from) {
      if Backed(n, p.from) {
        StillBacked(n, m, i, p.from, k);
        if !Backed(m, p.from) {
          assert IsRemove(m.net[|m.net| - 1], m.dir, p.from) && j < |m.net| - 1;
        }
      } else {
        StillGivesUp(n, m, i, p.from, k);
      }
    }
    if Misleads(m, p) && OnRecord(n) == At(p.to) {
      StillTold(n, m, i, p.to, k);
    }
  }

  lemma MovesKeeps(n: Name, m: Name, i: nat)
    requires Known(n) && Moves(n, m, i)
    requires forall j :: |Remaining(n.net, i)| <= j < |m.net| ==> AnswerOk(m, j) && NewsOk(m, j)
    ensures Known(m)
  {
    forall j | 0 <= j < |m.net| ensures AnswerOk(m, j) && NewsOk(m, j) {
      if j < |Remaining(n.net, i)| {
        OldPackets(n, m, i, if j < i then j else j + 1);
      }
    }
    forall x: nat | x != m.dir && OnRecord(m) == At(x) ensures Backed(m, x) || GivesUpAfter(m, x, -1) {
      if Backed(n, x) {
        StillBacked(n, m, i, x, 0);
      } else {
        StillGivesUp(n, m, i, x, -1);
      }
    }
  }

  /** Nobody, or the directory itself, is on record. */
  lemma NobodyElse(m: Name)
    requires OnRecord(m) == Unknown || OnRecord(m) == At(m.dir)
    requires forall k :: 0 <= k < |m.net| && (m.net[k].body.RequestReply? || m.net[k].body.LookupReply?) ==>
      m.net[k].from != m.net[k].to
    ensures Known(m)
  {
  }

  lemma NobodyElseStays(n: Name, m: Name)
    requires Ordinary(m) && (OnRecord(m) == Unknown || OnRecord(m) == At(m.dir))
    ensures Known(m)
  {
    forall k | 0 <= k < |m.net| && (m.net[k].body.RequestReply? || m.net[k].body.LookupReply?)
      ensures m.net[k].from != m.net[k].to {
      assert PacketOk(m, k);
    }
    NobodyElse(m);
  }

  // ----- each step

  predicate IsQuestion(p: Packet) {
    p.body.Lookup? || p.body.Request?
  }

  /** Asking for the master sends a question at most, and leaves the master believed in as it was. */
  lemma AskEffect(s: Name, x: nat, r: Rsb, doubtful: bool, num: nat)
    requires s.dir == x ==> r.master.At?
    ensures
      var m := AskMaster(s, x, r, doubtful, num);
      && m.dir == s.dir && s.net <= m.net
      && (forall j :: |s.net| <= j < |m.net| ==> IsQuestion(m.net[j]))
      && x in m.rsbs && m.rsbs[x].master == r.master
      && SameRsbs(s, m, x)
      && SameWaits(s, m, Lk(x, num))
  {
  }

  /** Only the wait of `w` may change. */
  ghost predicate SameWaits(n: Name, m: Name, w: Lk) {
    forall v :: v != w ==> (v in m.waits <==> v in n.waits) && (v in n.waits ==> m.waits[v] == n.waits[v])
  }

  /** Only the record of `x` may change. */
  ghost predicate SameRsbs(n: Name, m: Name, x: nat) {
    forall y :: y != x ==> (y in m.rsbs <==> y in n.rsbs) && (y in n.rsbs ==> m.rsbs[y] == n.rsbs[y])
  }

  /** No message is for lock `w`. */
  ghost predicate NoneFor(n: Name, w: Lk, i: nat) {
    forall k :: 0 <= k < |n.net| && k != i ==> Owner(n.net[k]) != Some(w)
  }

  lemma FreshOwner(n: Name, w: Lk)
    requires Ordinary(n) && w !in n.waits
    ensures NoneFor(n, w, |n.net|)
  {
    forall k | 0 <= k < |n.net| ensures Owner(n.net[k]) != Some(w) {
      OwnerWaits(n, k);
    }
  }

  /** If only the waits of `w` change, and no message is for it, no message changes what it does. */
  lemma SameNews(n: Name, m: Name, w: Lk, i: nat)
    requires NoneFor(n, w, i) && m.dir == n.dir && SameWaits(n, m, w)
    ensures forall k :: 0 <= k < |n.net| && k != i && Misleads(m, n.net[k]) ==> Misleads(n, n.net[k])
  {
  }

  lemma AskRecords(n: Name, x: nat, r: Rsb, doubtful: bool, num: nat)
    requires Ordinary(n) && Known(n) && Lk(x, num) !in n.waits
    requires if x in n.rsbs then r.master == n.rsbs[x].master else x != n.dir && r.master == Unknown
    ensures Known(AskMaster(n, x, r, doubtful, num))
  {
    assert x == n.dir ==> RsbOk(n, x);
    var m := AskMaster(n, x, r, doubtful, num);
    AskEffect(n, x, r, doubtful, num);
    FreshOwner(n, Lk(x, num));
    SameNews(n, m, Lk(x, num), |n.net|);
    assert OnRecord(m) == OnRecord(n);
    assert Moves(n, m, |n.net|);
    MovesKeeps(n, m, |n.net|);
  }

  lemma AskKnown(n: Name, x: nat, num: nat)
    requires Ordinary(n) && Known(n) && Possible(n, Ask(x, num))
    ensures Known(Next(n, Ask(x, num)))
  {
    var (r, doubtful) := FindLocal(n, x);
    if x == n.dir && x !in n.rsbs {
      AskKeeps(n, x, num);
      NobodyElseStays(n, Next(n, Ask(x, num)));
    } else {
      AskRecords(n, x, r, doubtful, num);
    }
  }

  lemma UnparkKnown(n: Name, x: nat, num: nat, alone: bool)
    requires Ordinary(n) && Known(n) && Possible(n, Unpark(x, num, alone))
    ensures Known(Next(n, Unpark(x, num, alone)))
  {
    var r := n.rsbs[x].(parked := n.rsbs[x].parked - {num});
    assert RsbOk(n, x);
    AskRecords(n, x, if alone then r.(first := Some(num)) else r, false, num);
  }

  lemma LocalKnown(n: Name, e: Event)
    requires Ordinary(n) && Known(n) && Possible(n, e) && (e.Toss? || e.Shrink? || e.Open?)
    ensures Known(Next(n, e))
  {
    var m := Next(n, e);
    if e.Shrink? && e.node == n.dir {
      ShrinkKeeps(n, e.node);
      NobodyElseStays(n, m);
    } else if e.Shrink? {
      GivenUp(n, e.node);
      MovesKeeps(n, m, |n.net|);
    } else {
      assert Moves(n, m, |n.net|);
      MovesKeeps(n, m, |n.net|);
    }
  }

  lemma GivenUp(n: Name, x: nat)
    requires Possible(n, Shrink(x)) && x != n.dir
    ensures Moves(n, Next(n, Shrink(x)), |n.net|)
  {
  }

  // ----- each message

  lemma OthersNotFor(n: Name, i: nat, w: Lk)
    requires Ordinary(n) && i < |n.net| && Owner(n.net[i]) == Some(w)
    ensures NoneFor(n, w, i)
  {
  }

  /** A node that has been misled does not matter, or is told better later. */
  lemma MisledIsExcused(n: Name, m: Name, i: nat, x: nat)
    requires Known(n) && i < |n.net| && Oldest(n.net, i) && Misleads(n, n.net[i]) && n.net[i].to == x
    requires m.dir == n.dir && OnRecord(m) == OnRecord(n) && Take(n.net, i) <= m.net
    ensures Excused(m, x)
  {
    assert NewsOk(n, i);
    if OnRecord(n) == At(x) {
      var j :| i < j < |n.net| && 0 <= j && TellsSo(n.net[j], n.dir, x);
      RemainingAt(n.net, i, j);
      assert TellsSo(m.net[j - 1], m.dir, x);
    }
  }

  lemma LookupKnown(n: Name, i: nat, rc: Answer)
    requires Ordinary(n) && Known(n) && Oldest(n.net, i) && n.net[i].body.Lookup?
    ensures Known(Receive(Taken(n, i), n.net[i], rc))
  {
    var p := n.net[i];
    var m := Receive(Taken(n, i), p, rc);
    assert PacketOk(n, i);
    LookupKeeps(n, i, rc);
    if n.dir !in n.rsbs {
      var last := |m.net| - 1;
      assert TellsSo(m.net[last], m.dir, p.from);
      forall k | 0 <= k < |m.net| ensures AnswerOk(m, k) && NewsOk(m, k) {
        assert PacketOk(m, k);
      }
    } else if OnRecord(n) == At(n.dir) {
      NobodyElseStays(n, m);
    } else {
      assert RsbOk(n, n.dir);
      assert Moves(n, m, i);
      MovesKeeps(n, m, i);
    }
  }

  lemma LookupReplyKnown(n: Name, i: nat, rc: Answer)
    requires Ordinary(n) && Known(n) && Oldest(n.net, i) && n.net[i].body.LookupReply?
    ensures Known(Receive(Taken(n, i), n.net[i], rc))
  {
    var p := n.net[i];
    var x, num, y := p.to, p.body.num, p.body.master;
    var m := Receive(Taken(n, i), p, rc);
    assert PacketOk(n, i) && x in n.rsbs by { OwnerWaits(n, i); assert WaitOk(n, Lk(x, num)); }
    OthersNotFor(n, i, Lk(x, num));
    var r := n.rsbs[x].(master := At(y));
    AskEffect(Done(n, i, Lk(x, num)), x, if y == x then r.(first := None) else r, false, num);
    SameNews(n, m, Lk(x, num), i);
    if y != x {
      MisledIsExcused(n, m, i, x);
    }
    assert Moves(n, m, i);
    MovesKeeps(n, m, i);
  }

  lemma RequestKnown(n: Name, i: nat, rc: Answer)
    requires Ordinary(n) && Known(n) && Oldest(n.net, i) && n.net[i].body.Request?
    ensures Known(Receive(Taken(n, i), n.net[i], rc))
  {
    var p := n.net[i];
    var m := Receive(Taken(n, i), p, rc);
    assert PacketOk(n, i);
    if p.to == n.dir && p.to !in n.rsbs {
      RequestKeeps(n, i, rc);
      NobodyElseStays(n, m);
    } else {
      assert p.to == n.dir ==> RsbOk(n, n.dir);
      RequestEffect(Taken(n, i), p.to, p.from, p.body.num, rc);
      assert Moves(n, m, i);
      MovesKeeps(n, m, i);
    }
  }

  /** A request makes nobody forget that it is the master, and makes the node the master if the directory asks. */
  lemma RequestEffect(s: Name, x: nat, from: nat, num: nat, rc: Answer)
    requires (x == s.dir ==> x in s.rsbs) && x != from
    ensures var m := ReceiveRequest(s, x, from, num, rc);
      && m.dir == s.dir && m.waits == s.waits && SameRsbs(s, m, x)
      && |m.net| == |s.net| + 1 && s.net <= m.net
      && m.net[|s.net|].from == x && m.net[|s.net|].to == from
      && m.net[|s.net|].body.RequestReply? && m.net[|s.net|].body.num == num
      && (IsMaster(s, x) || from == s.dir ==> IsMaster(m, x))
      && (x == s.dir ==> x in m.rsbs && m.rsbs[x].master == s.rsbs[x].master)
  {
  }

  lemma RequestReplyKnown(n: Name, i: nat, rc: Answer)
    requires Ordinary(n) && Known(n) && Oldest(n.net, i) && n.net[i].body.RequestReply?
    ensures Known(Receive(Taken(n, i), n.net[i], rc))
  {
    var p := n.net[i];
    var x, num := p.to, p.body.num;
    var m := Receive(Taken(n, i), p, rc);
    assert PacketOk(n, i) && x in n.rsbs by { OwnerWaits(n, i); assert WaitOk(n, Lk(x, num)); }
    assert x == n.dir ==> RsbOk(n, x);
    OthersNotFor(n, i, Lk(x, num));
    ReplyEffect(n, i, x, num, p.body.rc);
    SameNews(n, m, Lk(x, num), i);
    if WaitsFor(n, Lk(x, num), ForLookup) {
      MisledIsExcused(n, m, i, x);
    }
    assert Moves(n, m, i);
    MovesKeeps(n, m, i);
  }

  /** The reply to a request changes what the node believes only if it comes from the directory in answer to a
      lookup, or takes away a belief in another master. */
  lemma ReplyEffect(n: Name, i: nat, x: nat, num: nat, rc: Answer)
    requires i < |n.net| && x in n.rsbs && (x == n.dir ==> n.rsbs[x].master.At? && !WaitsFor(n, Lk(x, num), ForLookup))
    ensures
      var s := Taken(n, i);
      var m := ReceiveRequestReply(s, x, n.net[i].from, num, rc);
      && m.dir == n.dir && s.net <= m.net
      && (forall j :: |s.net| <= j < |m.net| ==> IsQuestion(m.net[j]))
      && x in m.rsbs && SameRsbs(n, m, x)
      && (x == n.dir ==> m.rsbs[x].master == n.rsbs[x].master)
      && (n.rsbs[x].master == At(x) && !WaitsFor(n, Lk(x, num), ForLookup) ==> m.rsbs[x].master == At(x))
      && SameWaits(n, m, Lk(x, num))
  {
    var r := if WaitsFor(n, Lk(x, num), ForLookup) then n.rsbs[x].(master := At(n.net[i].from)) else n.rsbs[x];
    var r1 := if n.dir != x && r.master != At(x) then r.(master := Unknown) else r;
    AskEffect(Taken(n, i).(waits := n.waits - {Lk(x, num)}), x, r1, false, num);
  }

  lemma NotifyReplyKnown(n: Name, i: nat, rc: Answer)
    requires Ordinary(n) && Known(n) && Oldest(n.net, i) && n.net[i].body.NotifyReply?
    ensures Known(Receive(Taken(n, i), n.net[i], rc))
  {
    assert PacketOk(n, i);
    var m := Receive(Taken(n, i), n.net[i], rc);
    assert Moves(n, m, i);
    MovesKeeps(n, m, i);
  }

  /** The directory takes no notice of a removal only while it waits for the sender itself. */
  ghost predicate Heeded(n: Name, e: Event) {
    e.Deliver? && e.i < |n.net| && n.net[e.i].body.Remove? && n.dir in n.rsbs && n.rsbs[n.dir].active ==>
      DirWaitsPast(n, n.net[e.i].from, e.i)
  }

  lemma RemoveKnown(n: Name, i: nat, rc: Answer)
    requires Ordinary(n) && Known(n) && Oldest(n.net, i) && n.net[i].body.Remove? && Heeded(n, Deliver(i, rc))
    ensures Known(Receive(Taken(n, i), n.net[i], rc))
  {
    var p := n.net[i];
    var m := Receive(Taken(n, i), p, rc);
    assert PacketOk(n, i);
    if n.rsbs[n.dir].active {
      IgnoredIsBacked(n, i, p.from);
      assert Moves(n, m, i);
      MovesKeeps(n, m, i);
    } else {
      RemoveKeeps(n, i, rc);
      NobodyElseStays(n, m);
    }
  }

  lemma IgnoredIsBacked(n: Name, i: nat, x: nat)
    requires Ordinary(n) && Known(n) && Oldest(n.net, i) && n.net[i] == Packet(x, n.dir, Remove) && OnRecord(n) == At(x)
    requires DirWaitsPast(n, x, i)
    ensures Backed(Taken(n, i), x) || GivesUpAfter(Taken(n, i), x, -1)
  {
    var m := Taken(n, i);
    var j: nat :| Pending(n, x, i, j);
    if DirAsked(n.net[j], n.dir, x) {
      RemainingAt(n.net, i, j);
      assert DirAsked(m.net[if j < i then j else j - 1], m.dir, x);
    } else {
      assert AnswerOk(n, j);
      if GivesUpAfter(n, x, j) {
        var k :| j < k < |n.net| && 0 <= k && IsRemove(n.net[k], n.dir, x);
        RemainingAt(n.net, i, k);
        assert IsRemove(m.net[k - 1], m.dir, x);
      } else {
        BackedTaken(n, i, x);
      }
    }
  }

  lemma BackedTaken(n: Name, i: nat, x: nat)
    requires i < |n.net| && n.net[i].body.Remove? && Backed(n, x)
    ensures Backed(Taken(n, i), x)
  {
    var m := Taken(n, i);
    if ToldAfter(n, x, -1) {
      var k :| -1 < k < |n.net| && 0 <= k && TellsSo(n.net[k], n.dir, x);
      RemainingAt(n.net, i, k);
      assert TellsSo(m.net[if k < i then k else k - 1], m.dir, x);
    } else if Summoned(n, x) {
      var k :| 0 <= k < |n.net| && DirAsked(n.net[k], n.dir, x);
      RemainingAt(n.net, i, k);
      assert DirAsked(m.net[if k < i then k else k - 1], m.dir, x);
    }
  }

  lemma DeliverKnown(n: Name, i: nat, rc: Answer)
    requires Ordinary(n) && Known(n) && Oldest(n.net, i) && Heeded(n, Deliver(i, rc))
    ensures Known(Receive(Taken(n, i), n.net[i], rc))
  {
    assert PacketOk(n, i);
    match n.net[i].body
    case Lookup(_) => LookupKnown(n, i, rc);
    case LookupReply(_, _) => LookupReplyKnown(n, i, rc);
    case Request(_) => RequestKnown(n, i, rc);
    case RequestReply(_, _) => RequestReplyKnown(n, i, rc);
    case Remove => RemoveKnown(n, i, rc);
    case NotifyReply(_) => NotifyReplyKnown(n, i, rc);
  }

  lemma StepKnown(n: Name, e: Event)
    requires Ordinary(n) && Known(n) && Possible(n, e) && !e.AskNew? && Heeded(n, e)
    ensures Known(Next(n, e))
  {
    match e
    case Ask(x, num) => AskKnown(n, x, num);
    case Unpark(x, num, alone) => UnparkKnown(n, x, num, alone);
    case Deliver(i, rc) => DeliverKnown(n, i, rc);
    case _ => LocalKnown(n, e);
  }

  lemma AnnouncedKnown(n: Name, x: nat, c: nat, e: Event)
    requires Announced(n, x, c) && Possible(n, e) && Gate(n, e) && !e.AskNew?
    ensures Ordinary(Next(n, e)) ==> Known(Next(n, e))
  {
    assert n.net[0].body.Notify? && Lk(x, c) in n.waits;
    if e.Deliver? {
      assert e.i == 0 && Take(n.net, 0) == [];
    } else {
      NoticeStays(n, e);
      assert !PacketOk(Next(n, e), 0);
    }
  }

  lemma NoticeStays(n: Name, e: Event)
    requires Possible(n, e) && !e.Deliver? && !e.AskNew?
    ensures n.net <= Next(n, e).net
  {
  }

  lemma {:induction false} RunKnown(ns: seq<Name>, es: seq<Event>, k: nat)
    requires IsRun(ns, es) && k <= |es| && forall i :: 0 <= i < k ==> Heeded(ns[i], es[i])
    ensures Ordinary(ns[k]) ==> Known(ns[k])
  {
    if k > 0 {
      RunKnown(ns, es, k - 1);
      RunInv(ns, es, k - 1);
      var n, e := ns[k - 1], es[k - 1];
      assert Step(n, e, ns[k]);
      if e.AskNew? {
        NewNameKnown(n, e.node, e.num);
      } else if Ordinary(n) {
        StepKnown(n, e);
      } else if Ordinary(ns[k]) {
        var x, c :| Announced(n, x, c);
        AnnouncedKnown(n, x, c, e);
      }
    }
  }

  lemma NewNameKnown(n: Name, x: nat, num: nat)
    requires Possible(n, AskNew(x, num))
    ensures var m := Next(n, AskNew(x, num)); Ordinary(m) ==> Known(m)
  {
    if x != n.dir {
      assert !PacketOk(Next(n, AskNew(x, num)), 0);
    }
  }

  /** Over every run in which the directory ignores a removal only in the race this is meant for: whoever is on record
      is the master, or is being told so, or has just given up. */
  lemma TheRecordIsTrue(ns: seq<Name>, es: seq<Event>, k: nat)
    requires IsRun(ns, es) && k <= |es| && !NoticeUnderWay(ns[k])
    requires forall i :: 0 <= i < k ==> Heeded(ns[i], es[i])
    ensures RecordTrue(ns[k])
  {
    RunInv(ns, es, k);
    NoNoticeIsOrdinary(ns[k]);
    RunKnown(ns, es, k);
  }

  /** With nothing on its way, the record says exactly who the master is. */
  lemma TheRecordIsExact(ns: seq<Name>, es: seq<Event>, k: nat, x: nat)
    requires IsRun(ns, es) && k <= |es| && ns[k].net == []
    requires forall i :: 0 <= i < k ==> Heeded(ns[i], es[i])
    ensures OnRecord(ns[k]) == At(x) <==> IsMaster(ns[k], x)
  {
    TheRecordIsTrue(ns, es, k);
    if IsMaster(ns[k], x) {
      DirectoryKnowsTheMaster(ns, es, k, x);
    }
  }

  // ----- what each message is answered, and what the answer does

  /** Step `k` of a run delivers message `p`. */
  ghost predicate Delivered(ns: seq<Name>, es: seq<Event>, k: nat, p: Packet) {
    && IsRun(ns, es) && k < |es| && es[k].Deliver?
    && es[k].i < |ns[k].net| && ns[k].net[es[k].i] == p
  }

  /** A removal makes the directory forget who was on record, if it does not use the name; otherwise the record
      stays as it was. */
  lemma RemovalForgets(ns: seq<Name>, es: seq<Event>, k: nat, p: Packet)
    requires Delivered(ns, es, k, p) && p.body.Remove?
    ensures
      var n, m := ns[k], ns[k + 1];
      if n.dir in n.rsbs && !n.rsbs[n.dir].active then OnRecord(n) == At(p.from) && OnRecord(m) == Unknown
      else OnRecord(m) == OnRecord(n)
  {
    RunInv(ns, es, k);
    assert Step(ns[k], es[k], ns[k + 1]);
    RemovalOfTheMaster(ns[k], es[k].i);
  }

  lemma RemovalOfTheMaster(n: Name, i: nat)
    requires Inv(n) && i < |n.net| && n.net[i].body.Remove?
    ensures OnRecord(n) == At(n.net[i].from)
  {
    if Ordinary(n) {
      assert PacketOk(n, i);
    }
  }

  /** A lookup is answered with the master on record; where there is none, whoever asks is put on record; where that
      is the directory itself, the question is answered as a request. */
  lemma LookupIsAnswered(ns: seq<Name>, es: seq<Event>, k: nat, p: Packet)
    requires Delivered(ns, es, k, p) && p.body.Lookup?
    ensures
      var n, m := ns[k], ns[k + 1];
      && |m.net| == |n.net| && m.net[|m.net| - 1].from == n.dir && m.net[|m.net| - 1].to == p.from
      && match OnRecord(n)
         case Unknown =>
           && OnRecord(m) == At(p.from) && (n.dir in n.rsbs || !m.rsbs[m.dir].active)
           && m.net[|m.net| - 1].body == LookupReply(p.body.num, p.from)
         case At(y) =>
           && OnRecord(m) == OnRecord(n)
           && m.net[|m.net| - 1].body
              == if y == n.dir then RequestReply(p.body.num, es[k].rc) else LookupReply(p.body.num, y)
  {
    RunInv(ns, es, k);
    assert Step(ns[k], es[k], ns[k + 1]);
    LookupFits(ns[k], es[k].i);
  }

  lemma LookupFits(n: Name, i: nat)
    requires Inv(n) && i < |n.net| && n.net[i].body.Lookup?
    ensures n.net[i].to == n.dir && (n.dir in n.rsbs ==> n.rsbs[n.dir].master.At?)
  {
    if Ordinary(n) {
      assert PacketOk(n, i);
      assert n.dir in n.rsbs ==> RsbOk(n, n.dir);
    }
  }

  /** A request is served by the master, by whomever the directory asks, and by a directory without a record; others
      say that they are not the master, or do not know the name. */
  lemma RequestIsAnswered(ns: seq<Name>, es: seq<Event>, k: nat, p: Packet)
    requires Delivered(ns, es, k, p) && p.body.Request?
    ensures
      var n, m, x := ns[k], ns[k + 1], p.to;
      && |m.net| == |n.net| && m.net[|m.net| - 1].from == x && m.net[|m.net| - 1].to == p.from
      && m.net[|m.net| - 1].body
         == RequestReply(p.body.num, if IsMaster(n, x) || p.from == n.dir || (x == n.dir && x !in n.rsbs) then es[k].rc
                                     else if x in n.rsbs then NotMaster else Missing)
      && (m.net[|m.net| - 1].body.rc == es[k].rc ==> IsMaster(m, x) && m.rsbs[x].active)
  {
    RunInv(ns, es, k);
    assert Step(ns[k], es[k], ns[k + 1]);
  }

  /** The creator of a name is its master at once, and tells the directory, if that is another node. */
  lemma CreatorsAreMasters(ns: seq<Name>, es: seq<Event>, k: nat, x: nat, num: nat)
    requires IsRun(ns, es) && k < |es| && es[k] == AskNew(x, num)
    ensures
      var n, m := ns[k], ns[k + 1];
      && IsMaster(m, x) && m.rsbs[x].active && m.creator == Some(x)
      && (x == n.dir ==> m.net == n.net)
      && (x != n.dir ==> m.net == n.net + [Packet(x, n.dir, Notify(num))] && WaitsFor(m, Lk(x, num), ForNotify))
  {
    assert Step(ns[k], es[k], ns[k + 1]);
  }

  /** The directory puts the creator on record, does not use the name itself, and confirms. */
  lemma AnnouncementsAreNoted(ns: seq<Name>, es: seq<Event>, k: nat, p: Packet)
    requires Delivered(ns, es, k, p) && p.body.Notify?
    ensures
      var n, m := ns[k], ns[k + 1];
      && OnRecord(m) == At(p.from) && !m.rsbs[m.dir].active
      && |m.net| == |n.net| && m.net[|m.net| - 1] == Packet(n.dir, p.from, NotifyReply(p.body.num))
  {
    RunInv(ns, es, k);
    assert Step(ns[k], es[k], ns[k + 1]);
    NoticeFits(ns[k], es[k].i);
  }

  lemma NoticeFits(n: Name, i: nat)
    requires Inv(n) && i < |n.net| && n.net[i].body.Notify?
    ensures n.dir !in n.rsbs
  {
    assert !PacketOk(n, i);
  }

  /** Records fall out of use, and are freed; a master that frees its record tells the directory, and nobody else
      tells anything. */
  lemma RecordsAreFreed(ns: seq<Name>, es: seq<Event>, k: nat, x: nat)
    requires IsRun(ns, es) && k < |es| && x in ns[k].rsbs
    ensures es[k] == Toss(x) ==> ns[k + 1] == ns[k].(rsbs := ns[k].rsbs[x := ns[k].rsbs[x].(active := false)])
    ensures es[k] == Shrink(x) ==>
      && x !in ns[k + 1].rsbs
      && ns[k + 1].net == if IsMaster(ns[k], x) && x != ns[k].dir then ns[k].net + [Packet(x, ns[k].dir, Remove)]
                          else ns[k].net
  {
    assert Step(ns[k], es[k], ns[k + 1]);
  }

  /** Who is told the master becomes it, if it is the one, and otherwise asks it; the lock waits no longer for the
      directory. */
  lemma NewsIsFollowed(ns: seq<Name>, es: seq<Event>, k: nat, p: Packet)
    requires Delivered(ns, es, k, p) && p.body.LookupReply?
    ensures
      var n, m, x, num, y := ns[k], ns[k + 1], p.to, p.body.num, p.body.master;
      && x in m.rsbs && m.rsbs[x].master == At(y)
      && (y == x ==> |m.net| == |n.net| - 1 && Lk(x, num) !in m.waits && m.rsbs[x].first == None)
      && (y != x ==> Asks(n, m, x, num, y) || num in m.rsbs[x].parked)
  {
    RunInv(ns, es, k);
    assert Step(ns[k], es[k], ns[k + 1]);
    ReplyFits(ns[k], es[k].i);
  }

  /** The request of lock `num` of `x` is sent to `y`. */
  ghost predicate Asks(n: Name, m: Name, x: nat, num: nat, y: nat) {
    WaitsFor(m, Lk(x, num), ForRequest) && m.net != [] && m.net[|m.net| - 1] == Packet(x, y, Request(num))
  }

  ghost predicate LooksUp(n: Name, m: Name, x: nat, num: nat) {
    WaitsFor(m, Lk(x, num), ForLookup) && m.net != [] && m.net[|m.net| - 1] == Packet(x, n.dir, Lookup(num))
  }

  lemma ReplyFits(n: Name, i: nat)
    requires Inv(n) && i < |n.net| && (n.net[i].body.LookupReply? || n.net[i].body.RequestReply?)
    ensures n.net[i].to in n.rsbs && (n.net[i].to == n.dir ==> n.rsbs[n.dir].master.At?)
    ensures n.net[i].body.LookupReply? ==> n.net[i].to != n.dir
    ensures n.net[i].to == n.dir ==> !WaitsFor(n, Lk(n.dir, n.net[i].body.num), ForLookup)
  {
    if Ordinary(n) {
      assert PacketOk(n, i);
      OwnerWaits(n, i);
      assert WaitOk(n, Lk(n.net[i].to, n.net[i].body.num));
      assert n.net[i].to == n.dir ==> RsbOk(n, n.dir);
    }
  }

  /** Who is served waits no longer, and lets the other locks of the node go on. */
  lemma ServiceSettles(ns: seq<Name>, es: seq<Event>, k: nat, p: Packet)
    requires Delivered(ns, es, k, p) && p.body.RequestReply? && (p.body.rc == Served || p.body.rc == Again)
    ensures
      var n, m, x := ns[k], ns[k + 1], p.to;
      && x in m.rsbs && m.rsbs[x].first == None && Lk(x, p.body.num) !in m.waits
      && m.rsbs[x].master
         == if WaitsFor(n, Lk(x, p.body.num), ForLookup) then At(p.from) else n.rsbs[x].master
  {
    RunInv(ns, es, k);
    assert Step(ns[k], es[k], ns[k + 1]);
    ReplyFits(ns[k], es[k].i);
  }

  /** Who is refused forgets the master, unless it is that itself, and asks the directory, or waits for another of
      its locks that does. */
  lemma RefusalIsFollowed(ns: seq<Name>, es: seq<Event>, k: nat, p: Packet)
    requires Delivered(ns, es, k, p) && p.body.RequestReply? && (p.body.rc == NotMaster || p.body.rc == Missing)
    requires p.to != ns[k].dir && !IsMaster(ns[k], p.to)
    ensures
      var n, m, x, num := ns[k], ns[k + 1], p.to, p.body.num;
      && x in m.rsbs && m.rsbs[x].master == Unknown
      && (LooksUp(n, m, x, num) || num in m.rsbs[x].parked)
  {
    RunInv(ns, es, k);
    assert Step(ns[k], es[k], ns[k + 1]);
    ReplyFits(ns[k], es[k].i);
    RefusalFits(ns[k], es[k].i);
  }

  /** Who is refused but is the master itself by now need not ask anybody, and lets the other locks of the node go
      on. */
  lemma RefusedMasterGoesOn(ns: seq<Name>, es: seq<Event>, k: nat, p: Packet)
    requires Delivered(ns, es, k, p) && p.body.RequestReply? && (p.body.rc == NotMaster || p.body.rc == Missing)
    requires IsMaster(ns[k], p.to) && !WaitsFor(ns[k], Lk(p.to, p.body.num), ForLookup)
    ensures
      var n, m, x := ns[k], ns[k + 1], p.to;
      IsMaster(m, x) && m.rsbs[x].first == None && |m.net| == |n.net| - 1 && Lk(x, p.body.num) !in m.waits
  {
    RunInv(ns, es, k);
    assert Step(ns[k], es[k], ns[k + 1]);
    ReplyFits(ns[k], es[k].i);
  }

  /** Only those who are not the directory refuse, so the master believed in was not the node itself. */
  lemma RefusalFits(n: Name, i: nat)
    requires Inv(n) && i < |n.net| && n.net[i].body.RequestReply?
    ensures n.net[i].from != n.net[i].to
  {
    if Ordinary(n) {
      assert PacketOk(n, i);
    }
  }

  /** The lock that settles a master in doubt is remembered: the first to ask the directory, and the first to use a
      record that has lain unused. */
  lemma DoubtIsSettledFirst(ns: seq<Name>, es: seq<Event>, k: nat, x: nat, num: nat)
    requires IsRun(ns, es) && k < |es| && es[k] == Ask(x, num)
    ensures
      var n, m := ns[k], ns[k + 1];
      && x in m.rsbs
      && (LooksUp(n, m, x, num) && n.net != m.net ==> m.rsbs[x].first == Some(num))
      && (x in n.rsbs && !n.rsbs[x].active && n.rsbs[x].master.At? && n.rsbs[x].master != At(x) ==>
            m.rsbs[x].first == Some(num) && Asks(n, m, x, num, n.rsbs[x].master.node))
      && (x in n.rsbs && n.rsbs[x].active && n.rsbs[x].master.At? ==> m.rsbs[x].first == n.rsbs[x].first)
  {
    RunInv(ns, es, k);
    assert Step(ns[k], es[k], ns[k + 1]);
    if Ordinary(ns[k]) && ns[k].dir in ns[k].rsbs {
      assert RsbOk(ns[k], ns[k].dir);
    }
  }

  /** A new lock: served at once by a node that is the master, sent to the master the node believes in, or to the
      directory; or it waits for another lock of its node that has asked already. */
  lemma QuestionsGoWhere(ns: seq<Name>, es: seq<Event>, k: nat, x: nat, num: nat)
    requires IsRun(ns, es) && k < |es| && es[k] == Ask(x, num)
    ensures
      var n, m := ns[k], ns[k + 1];
      && x in m.rsbs && m.rsbs[x].active && (x in n.rsbs ==> m.rsbs[x].master == n.rsbs[x].master)
      && (|| (IsMaster(m, x) && m.net == n.net)
          || (m.rsbs[x].master.At? && m.rsbs[x].master != At(x) && Asks(n, m, x, num, m.rsbs[x].master.node))
          || (m.rsbs[x].master == Unknown && LooksUp(n, m, x, num))
          || (num in m.rsbs[x].parked && m.rsbs[x].first.Some? && m.rsbs[x].first != Some(num)))
  {
    RunInv(ns, es, k);
    assert Step(ns[k], es[k], ns[k + 1]);
    if Ordinary(ns[k]) && ns[k].dir in ns[k].rsbs {
      assert RsbOk(ns[k], ns[k].dir);
    }
  }
}

/** Many new names under one parent lock.  The holder of the parent creates children and becomes their master
    without asking; the parent's unlock waits until a counter of unconfirmed announcements is zero.  That
    counter is all there is to keep other nodes from touching a name too early. */
module Children {
  import opened Evolution
  import opened Directory
  import opened DirectorySafety

  /** The names below one parent; who holds the parent's lock, and that lock's counter. */
  datatype Family = Family(names: map<nat, Name>, holder: Option<nat>, count: int)

  datatype Act = Acquire(node: nat)
               | Create(name: nat, num: nat)
               | Happen(name: nat, event: Event)
               | Release

  ghost predicate Allowed(f: Family, a: Act) {
    match a
    case Acquire(_) => f.holder == None
    case Create(c, num) => f.holder.Some? && c in f.names && Possible(f.names[c], AskNew(f.holder.value, num))
    case Happen(c, e) =>
      c in f.names && Possible(f.names[c], e) && !e.AskNew? && !e.Open?
      && (e.Ask? ==> f.names[c].open || f.names[c].creator == Some(e.node))
    case Release => f.holder.Some? && f.count == 0
  }

  predicate Confirms(n: Name, e: Event) {
    e.Deliver? && e.i < |n.net| && n.net[e.i].body.NotifyReply?
  }

  /** Whoever gets the parent's lock next can see the children. */
  function Publish(names: map<nat, Name>, holder: Option<nat>): map<nat, Name> {
    map c | c in names :: if names[c].creator == holder then names[c].(open := true) else names[c]
  }

  ghost function After(f: Family, a: Act): Family
    requires Allowed(f, a)
  {
    match a
    case Acquire(x) => f.(holder := Some(x), count := 0)
    case Create(c, num) =>
      var x := f.holder.value;
      f.(names := f.names[c := Next(f.names[c], AskNew(x, num))],
         count := if x == f.names[c].dir then f.count else f.count + 1)
    case Happen(c, e) =>
      f.(names := f.names[c := Next(f.names[c], e)], count := if Confirms(f.names[c], e) then f.count - 1 else f.count)
    case Release => f.(names := Publish(f.names, f.holder), holder := None)
  }

  ghost predicate IsHistory(fs: seq<Family>, acts: seq<Act>) {
    && |fs| == |acts| + 1 && fs[0].holder == None
    && (forall c :: c in fs[0].names ==> fs[0].names[c] == Unused(fs[0].names[c].dir))
    && forall i :: 0 <= i < |acts| ==> Allowed(fs[i], acts[i]) && fs[i + 1] == After(fs[i], acts[i])
  }

  // ----- the counter counts

  /** The creator has not been told that its announcement arrived. */
  ghost predicate Announcing(n: Name) {
    exists w :: WaitsFor(n, w, ForNotify)
  }

  ghost function Unconfirmed(f: Family): set<nat> {
    set c | c in f.names && Announcing(f.names[c])
  }

  ghost predicate OneNotice(n: Name) {
    forall v, w :: WaitsFor(n, v, ForNotify) && WaitsFor(n, w, ForNotify) ==> v == w
  }

  ghost predicate FamilyInv(f: Family) {
    && (forall c :: c in f.names ==> Inv(f.names[c]) && OneNotice(f.names[c]))
    && (forall c :: c in Unconfirmed(f) ==> f.holder.Some? && f.names[c].creator == f.holder)
    && (f.holder.Some? ==> f.count == |Unconfirmed(f)|)
  }

  lemma NoticeIsAnnouncing(n: Name)
    requires Inv(n) && NoticeUnderWay(n)
    ensures Announcing(n) && !n.open && n.creator.Some?
  {
    NoNoticeIsOrdinary(n);
    var x, num :| Announced(n, x, num);
    assert WaitsFor(n, Lk(x, num), ForNotify);
  }

  /** Who waits for a confirmation, and does not get it now, goes on waiting; and nobody begins to. */
  lemma NoticesKept(n: Name, e: Event, w: Lk)
    requires Inv(n) && Possible(n, e) && Gate(n, e) && !e.AskNew?
    ensures WaitsFor(Next(n, e), w, ForNotify)
      <==> WaitsFor(n, w, ForNotify) && !(Confirms(n, e) && Owner(n.net[e.i]) == Some(w))
    ensures Confirms(n, e) ==> Owner(n.net[e.i]).Some? && WaitsFor(n, Owner(n.net[e.i]).value, ForNotify)
  {
    if Ordinary(n) {
      OrdinaryNoticesKept(n, e, w);
    } else {
      var x, num :| Announced(n, x, num);
      AnnouncedNoticesKept(n, x, num, e, w);
    }
  }

  lemma AskingKeepsNotices(n: Name, x: nat, r: Rsb, doubtful: bool, num: nat, w: Lk)
    requires !WaitsFor(n, Lk(x, num), ForNotify)
    ensures WaitsFor(AskMaster(n, x, r, doubtful, num), w, ForNotify) <==> WaitsFor(n, w, ForNotify)
  {
  }

  lemma OrdinaryNoticesKept(n: Name, e: Event, w: Lk)
    requires Ordinary(n) && Possible(n, e) && !e.AskNew?
    ensures WaitsFor(Next(n, e), w, ForNotify)
      <==> WaitsFor(n, w, ForNotify) && !(Confirms(n, e) && Owner(n.net[e.i]) == Some(w))
    ensures Confirms(n, e) ==> Owner(n.net[e.i]).Some? && WaitsFor(n, Owner(n.net[e.i]).value, ForNotify)
  {
    match e
    case Ask(x, num) => AskingKeepsNotices(n, x, FindLocal(n, x).0, FindLocal(n, x).1, num, w);
    case Unpark(x, num, alone) =>
      assert RsbOk(n, x);
      var r := n.rsbs[x].(parked := n.rsbs[x].parked - {num});
      AskingKeepsNotices(n, x, if alone then r.(first := Some(num)) else r, false, num, w);
    case Deliver(i, rc) => DeliveryKeepsNotices(n, i, rc, w);
    case _ =>
  }

  lemma DeliveryKeepsNotices(n: Name, i: nat, rc: Answer, w: Lk)
    requires Ordinary(n) && Oldest(n.net, i)
    ensures WaitsFor(Receive(Taken(n, i), n.net[i], rc), w, ForNotify)
      <==> WaitsFor(n, w, ForNotify) && !(n.net[i].body.NotifyReply? && Owner(n.net[i]) == Some(w))
    ensures n.net[i].body.NotifyReply? ==> Owner(n.net[i]).Some? && WaitsFor(n, Owner(n.net[i]).value, ForNotify)
  {
    var p := n.net[i];
    assert PacketOk(n, i);
    match p.body
    case LookupReply(num, m) => ReplyKeepsNotices(n, i, p.to, num, w);
    case RequestReply(num, _) => ReplyKeepsNotices(n, i, p.to, num, w);
    case NotifyReply(_) =>
    case _ => assert Receive(Taken(n, i), p, rc).waits == n.waits by { QuestionsKeepWaits(Taken(n, i), p, rc); }
  }

  lemma QuestionsKeepWaits(n: Name, p: Packet, rc: Answer)
    requires p.body.Lookup? || p.body.Request? || p.body.Remove? || p.body.Notify?
    ensures Receive(n, p, rc).waits == n.waits
  {
  }

  lemma ReplyKeepsNotices(n: Name, i: nat, x: nat, num: nat, w: Lk)
    requires Ordinary(n) && Oldest(n.net, i) && n.net[i].to == x
    requires match n.net[i].body
      case LookupReply(k, _) => k == num
      case RequestReply(k, _) => k == num
      case _ => false
    ensures WaitsFor(Receive(Taken(n, i), n.net[i], Served), w, ForNotify) <==> WaitsFor(n, w, ForNotify)
  {
    var s := Done(n, i, Lk(x, num));
    assert PacketOk(n, i);
    assert WaitsFor(s, w, ForNotify) <==> WaitsFor(n, w, ForNotify);
    forall r: Rsb ensures WaitsFor(AskMaster(s, x, r, false, num), w, ForNotify) <==> WaitsFor(s, w, ForNotify) {
      AskingKeepsNotices(s, x, r, false, num, w);
    }
  }

  lemma AnnouncedNoticesKept(n: Name, x: nat, num: nat, e: Event, w: Lk)
    requires Announced(n, x, num) && Possible(n, e) && Gate(n, e) && !e.AskNew?
    ensures WaitsFor(Next(n, e), w, ForNotify) <==> WaitsFor(n, w, ForNotify)
    ensures !Confirms(n, e)
  {
    assert Lk(x, num) in n.waits && n.net[0].body.Notify?;
  }

  /** Only a confirmation ends an announcement, and nothing but a creation starts one. */
  lemma ConfirmationEnds(n: Name, e: Event)
    requires Inv(n) && OneNotice(n) && Possible(n, e) && Gate(n, e) && !e.AskNew?
    ensures Inv(Next(n, e)) && OneNotice(Next(n, e))
    ensures Announcing(Next(n, e)) <==> Announcing(n) && !Confirms(n, e)
    ensures Confirms(n, e) ==> Announcing(n)
    ensures Next(n, e).creator == n.creator
  {
    StepKeepsInv(n, e);
    CreatorStays(n, e);
    NoticesKept(n, e, Lk(0, 0));
    var gone := if Confirms(n, e) then Owner(n.net[e.i]) else None;
    forall w ensures WaitsFor(Next(n, e), w, ForNotify) <==> WaitsFor(n, w, ForNotify) && gone != Some(w) {
      NoticesKept(n, e, w);
    }
    OneLess(n, Next(n, e), gone);
  }

  lemma CreatorStays(n: Name, e: Event)
    requires Possible(n, e) && !e.AskNew?
    ensures Next(n, e).creator == n.creator
  {
  }

  lemma OneLess(n: Name, m: Name, gone: Option<Lk>)
    requires OneNotice(n) && forall w :: WaitsFor(m, w, ForNotify) <==> WaitsFor(n, w, ForNotify) && gone != Some(w)
    requires gone.Some? ==> WaitsFor(n, gone.value, ForNotify)
    ensures OneNotice(m) && (Announcing(m) <==> Announcing(n) && gone == None)
  {
  }

  lemma CreationStarts(n: Name, x: nat, num: nat)
    requires Inv(n) && Possible(n, AskNew(x, num))
    ensures var m := Next(n, AskNew(x, num));
      && Inv(m) && OneNotice(m) && m.creator == Some(x)
      && !Announcing(n) && (Announcing(m) <==> x != n.dir)
  {
    AskNewKeeps(n, x, num);
    assert x != n.dir ==> WaitsFor(Next(n, AskNew(x, num)), Lk(x, num), ForNotify);
  }

  /** One name changes. */
  lemma Recount(f: Family, c: nat, m: Name)
    requires c in f.names
    ensures var now := Unconfirmed(f.(names := f.names[c := m]));
      now == if Announcing(m) then Unconfirmed(f) + {c} else Unconfirmed(f) - {c}
  {
  }

  lemma CreateKeeps(f: Family, c: nat, num: nat)
    requires FamilyInv(f) && Allowed(f, Create(c, num))
    ensures FamilyInv(After(f, Create(c, num)))
  {
    var x := f.holder.value;
    var m := Next(f.names[c], AskNew(x, num));
    CreationStarts(f.names[c], x, num);
    Recount(f, c, m);
    assert c !in Unconfirmed(f);
    assert Unconfirmed(After(f, Create(c, num))) == Unconfirmed(f.(names := f.names[c := m]));
  }

  lemma HappenKeeps(f: Family, c: nat, e: Event)
    requires FamilyInv(f) && Allowed(f, Happen(c, e))
    ensures FamilyInv(After(f, Happen(c, e)))
  {
    var n := f.names[c];
    if NoticeUnderWay(n) {
      NoticeIsAnnouncing(n);
      NoNoticeIsOrdinary(n);
    }
    ConfirmationEnds(n, e);
    NameMoves(f, c, Next(n, e), Confirms(n, e));
  }

  lemma NameMoves(f: Family, c: nat, m: Name, confirmed: bool)
    requires FamilyInv(f) && c in f.names && Inv(m) && OneNotice(m) && m.creator == f.names[c].creator
    requires Announcing(m) <==> Announcing(f.names[c]) && !confirmed
    requires confirmed ==> Announcing(f.names[c])
    ensures FamilyInv(f.(names := f.names[c := m], count := if confirmed then f.count - 1 else f.count))
  {
    var g := f.(names := f.names[c := m], count := if confirmed then f.count - 1 else f.count);
    var was := Unconfirmed(f);
    UnconfirmedMoves(f, c, m, confirmed, g);
    forall d | d in Unconfirmed(g) ensures g.holder.Some? && g.names[d].creator == g.holder {
      assert d in was;
    }
    assert confirmed ==> |was - {c}| == |was| - 1;
  }

  lemma UnconfirmedMoves(f: Family, c: nat, m: Name, confirmed: bool, g: Family)
    requires c in f.names && g.names == f.names[c := m]
    requires Announcing(m) <==> Announcing(f.names[c]) && !confirmed
    requires confirmed ==> Announcing(f.names[c])
    ensures confirmed ==> c in Unconfirmed(f)
    ensures Unconfirmed(g) == if confirmed then Unconfirmed(f) - {c} else Unconfirmed(f)
  {
    Recount(f, c, m);
    assert Unconfirmed(g) == Unconfirmed(f.(names := f.names[c := m]));
    assert Announcing(f.names[c]) <==> c in Unconfirmed(f);
  }

  /** A zero counter is as good as looking at every announcement. */
  lemma ReleaseKeeps(f: Family)
    requires FamilyInv(f) && Allowed(f, Release)
    ensures FamilyInv(After(f, Release))
    ensures forall c :: c in f.names ==> !Announcing(f.names[c])
  {
    var g := After(f, Release);
    assert Unconfirmed(f) == {};
    forall c | c in f.names ensures !Announcing(f.names[c]) && Inv(g.names[c]) && !Announcing(g.names[c]) {
      var n := f.names[c];
      assert c !in Unconfirmed(f);
      if NoticeUnderWay(n) {
        NoticeIsAnnouncing(n);
      }
      NoNoticeIsOrdinary(n);
      OpenKeeps(n);
      assert forall w :: WaitsFor(g.names[c], w, ForNotify) <==> WaitsFor(n, w, ForNotify);
    }
  }

  lemma ActKeeps(f: Family, a: Act)
    requires FamilyInv(f) && Allowed(f, a)
    ensures FamilyInv(After(f, a))
  {
    match a
    case Acquire(_) =>
    case Create(c, num) => CreateKeeps(f, c, num);
    case Happen(c, e) => HappenKeeps(f, c, e);
    case Release => ReleaseKeeps(f);
  }

  lemma {:induction false} HistoryInv(fs: seq<Family>, acts: seq<Act>, k: nat)
    requires IsHistory(fs, acts) && k <= |acts|
    ensures FamilyInv(fs[k])
  {
    if k == 0 {
      forall c | c in fs[0].names ensures Inv(fs[0].names[c]) && !Announcing(fs[0].names[c]) {
      }
    } else {
      HistoryInv(fs, acts, k - 1);
      ActKeeps(fs[k - 1], acts[k - 1]);
    }
  }

  /** For any number of children and any interleaving of announcements and confirmations: no name ever has two
      masters, and what the parent's lock has waited for is on record. */
  lemma SelfOwnersAreSafe(fs: seq<Family>, acts: seq<Act>, k: nat, c: nat)
    requires IsHistory(fs, acts) && k <= |acts| && c in fs[k].names
    ensures OneMaster(fs[k].names[c])
    ensures forall x :: fs[k].names[c].open && IsMaster(fs[k].names[c], x) ==> OnRecord(fs[k].names[c]) == At(x)
    ensures fs[k].holder.Some? ==> fs[k].count == |Unconfirmed(fs[k])|
  {
    HistoryInv(fs, acts, k);
    var n := fs[k].names[c];
    InvMeansOneMaster(n);
    forall x | n.open && IsMaster(n, x) ensures OnRecord(n) == At(x) {
      assert RsbOk(n, x);
    }
  }

  /** When the parent's lock is let go, all names created under it may be known to everybody, and no other names. */
  lemma ReleasePublishes(fs: seq<Family>, acts: seq<Act>, k: nat, c: nat)
    requires IsHistory(fs, acts) && k < |acts| && acts[k] == Release && c in fs[k].names
    ensures c in fs[k + 1].names && fs[k + 1].holder == None
    ensures fs[k + 1].names[c].open <==> fs[k].names[c].open || fs[k].names[c].creator == fs[k].holder
    ensures fs[k + 1].names[c] == fs[k].names[c].(open := fs[k + 1].names[c].open)
  {
    assert Allowed(fs[k], acts[k]) && fs[k + 1] == After(fs[k], acts[k]);
  }
}

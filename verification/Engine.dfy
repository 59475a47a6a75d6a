/** The grant engine as it is written: lock blocks with mutable fields, a resource block with three lists,
    and loops that walk them.  Every method is proved to compute the function of the same meaning in
    Resource.dfy, for which the properties are proved. */
module Engine {
  import opened Modes
  import opened Resource
  import opened Shape

  datatype StatusWord = NoQueue | OnQueue(status: Status)

  class Lkb {
    const id: LkId
    var grmode: Mode
    var rqmode: Mode
    var exflags: Flags
    var demoted: bool
    var altmode: bool
    var status: StatusWord

    constructor (id: LkId, mode: Mode, flags: Flags)
      ensures View() == Fresh(id, mode, flags) && status == NoQueue
    {
      this.id := id;
      grmode, rqmode, exflags := IV, mode, flags;
      demoted, altmode := false, false;
      status := NoQueue;
    }

    function View(): Lock
      reads `grmode, `rqmode, `exflags, `demoted, `altmode
    {
      Lock(id, grmode, rqmode, exflags, demoted, altmode)
    }
  }

  // ----- lists of lock blocks

  /** The list `q` reads `v`, and its members carry the status word `st`. */
  ghost predicate Reads(q: seq<Lkb>, v: seq<Lock>, st: Status)
    reads q
  {
    |q| == |v| && forall i :: 0 <= i < |q| ==> q[i].View() == v[i] && q[i].status == OnQueue(st)
  }

  ghost predicate OnlyOne(q: seq<Lkb>, x: Lkb) {
    forall i :: 0 <= i < |q| && q[i].id == x.id ==> q[i] == x
  }

  ghost predicate IdsUnique(r: Res) {
    && UniqueIds(r.grant) && UniqueIds(r.convert) && UniqueIds(r.wait)
    && Apart(r.grant, r.convert) && Apart(r.grant, r.wait) && Apart(r.convert, r.wait)
  }

  /** The same record under every name it has. */
  ghost function ReplaceAll(r: Res, l: Lock): Res {
    Res(Replace(r.grant, l), Replace(r.convert, l), Replace(r.wait, l))
  }

  ghost function DropAll(r: Res, id: LkId): Res {
    Res(Drop(r.grant, id), Drop(r.convert, id), Drop(r.wait, id))
  }

  /** A resource with one more lock on the queue that goes with its status. */
  ghost function Placed(r: Res, l: Lock, st: Status): Res {
    match st
    case Granted => r.(grant := InsertOrdered(r.grant, l, l.gr))
    case Converting => r.(convert := Enqueue(r.convert, l))
    case Waiting => r.(wait := Enqueue(r.wait, l))
  }

  /** Granting a lock, wherever it stands. */
  ghost function GrantAny(r: Res, l: Lock): Res {
    if l.gr != l.rq then
      var d := DropAll(r, l.id);
      d.(grant := InsertOrdered(d.grant, AfterGrant(l), l.rq))
    else ReplaceAll(r, AfterGrant(l))
  }

  function ListAdd(q: seq<Lkb>, x: Lkb, head: bool): seq<Lkb> {
    if head then [x] + q else q + [x]
  }

  function ListInsert(q: seq<Lkb>, i: nat, x: Lkb): seq<Lkb>
    requires i <= |q|
  {
    q[..i] + [x] + q[i..]
  }

  /** Unlink the entry at position `i`. */
  function ListDel(q: seq<Lkb>, i: nat): seq<Lkb>
    requires i < |q|
  {
    q[..i] + q[i + 1..]
  }

  class Rsb {
    var grantqueue: seq<Lkb>
    var convertqueue: seq<Lkb>
    var waitqueue: seq<Lkb>
    ghost var state: Res

    constructor ()
      ensures Valid() && state == EmptyRes
    {
      grantqueue, convertqueue, waitqueue := [], [], [];
      state := EmptyRes;
    }

    /** Each lock block is on one list, once, and its status says which; different blocks have different names. */
    ghost predicate Valid()
      reads this, grantqueue, convertqueue, waitqueue
    {
      && Reads(grantqueue, state.grant, Granted)
      && Reads(convertqueue, state.convert, Converting)
      && Reads(waitqueue, state.wait, Waiting)
      && IdsUnique(state)
    }

    /** `x` is the only lock block of its name here. */
    ghost predicate Sole(x: Lkb)
      reads `grantqueue, `convertqueue, `waitqueue
    {
      OnlyOne(grantqueue, x) && OnlyOne(convertqueue, x) && OnlyOne(waitqueue, x)
    }

    // ----- reading the lists

    method QueueConflict(q: seq<Lkb>, lkb: Lkb, ghost v: seq<Lock>, ghost st: Status) returns (c: bool)
      requires Reads(q, v, st) && OnlyOne(q, lkb)
      ensures c == Conflicts(v, lkb.View())
    {
      c := false;
      for i := 0 to |q|
        invariant forall k :: 0 <= k < i ==> q[k] == lkb || Compat(q[k].grmode, lkb.rqmode)
      {
        if q[i] != lkb && !Compat(q[i].grmode, lkb.rqmode) {
          assert v[i] in v;
          return true;
        }
      }
    }

    method ConversionDeadlockDetect(lkb2: Lkb) returns (d: bool)
      requires Valid() && Sole(lkb2)
      ensures d == Deadlocks(state.convert, lkb2.View(), false)
    {
      ghost var v := state.convert;
      var isAhead := false;
      assert v[0..] == v;
      for i := 0 to |convertqueue|
        invariant Deadlocks(v, lkb2.View(), false) == Deadlocks(v[i..], lkb2.View(), isAhead)
      {
        var lkb1 := convertqueue[i];
        assert v[i..][0] == lkb1.View() && v[i..][1..] == v[i + 1..];
        if lkb1 == lkb2 {
          isAhead := true;
        } else if !isAhead {
          if !Compat(lkb2.grmode, lkb1.rqmode) {
            return true;
          }
        } else {
          if !Compat(lkb2.grmode, lkb1.rqmode) && !Compat(lkb1.grmode, lkb2.rqmode) {
            return true;
          }
        }
      }
      return false;
    }

    /** The granting rules proper. */
    method CanBeGrantedNow(lkb: Lkb, now: bool) returns (ok: bool)
      requires Valid() && Sole(lkb)
      ensures ok == Grantable(state, lkb.View(), now)
    {
      var conv := lkb.grmode != IV;
      if lkb.exflags.expedite {
        return true;
      }
      var c := QueueConflict(grantqueue, lkb, state.grant, Granted);
      if c {
        return false;
      }
      c := QueueConflict(convertqueue, lkb, state.convert, Converting);
      if c {
        return false;
      }
      if now && conv && !lkb.exflags.quecvt {
        return true;
      }
      if now && conv && lkb.exflags.quecvt {
        return convertqueue == [];
      }
      if lkb.exflags.noorder {
        return true;
      }
      if !now && conv && convertqueue != [] && convertqueue[0].id == lkb.id {
        return true;
      }
      if now && !conv && convertqueue == [] && waitqueue == [] {
        return true;
      }
      return !now && !conv && convertqueue == [] && waitqueue != [] && waitqueue[0].id == lkb.id;
    }

    // ----- changing one lock block

    /** The lists read `state`, except perhaps for the record of `lkb`. */
    ghost predicate ValidBut(lkb: Lkb)
      reads this, grantqueue, convertqueue, waitqueue
    {
      && AgreeBut(grantqueue, state.grant, Granted, lkb)
      && AgreeBut(convertqueue, state.convert, Converting, lkb)
      && AgreeBut(waitqueue, state.wait, Waiting, lkb)
      && IdsUnique(state) && Sole(lkb)
    }

    /** Bring `state` up to date after the fields of one lock block have changed. */
    ghost method Record(lkb: Lkb)
      requires ValidBut(lkb)
      modifies `state
      ensures Valid() && state == ReplaceAll(old(state), lkb.View())
    {
      var l := lkb.View();
      ListChanged(grantqueue, state.grant, Granted, lkb);
      ListChanged(convertqueue, state.convert, Converting, lkb);
      ListChanged(waitqueue, state.wait, Waiting, lkb);
      IdsKept(state, l);
      state := ReplaceAll(state, l);
    }

    method SetRqmode(lkb: Lkb, mode: Mode)
      requires Valid() && Sole(lkb)
      modifies lkb`rqmode, `state
      ensures lkb.rqmode == mode
      ensures Valid() && state == ReplaceAll(old(state), lkb.View())
    {
      lkb.rqmode := mode;
      Record(lkb);
    }

    method SetGrmode(lkb: Lkb, mode: Mode)
      requires Valid() && Sole(lkb)
      modifies lkb`grmode, `state
      ensures lkb.grmode == mode
      ensures Valid() && state == ReplaceAll(old(state), lkb.View())
    {
      lkb.grmode := mode;
      Record(lkb);
    }

    method SetAltmode(lkb: Lkb)
      requires Valid() && Sole(lkb)
      modifies lkb`altmode, `state
      ensures lkb.altmode
      ensures Valid() && state == ReplaceAll(old(state), lkb.View())
    {
      lkb.altmode := true;
      Record(lkb);
    }

    method Demote(lkb: Lkb)
      requires Valid() && Sole(lkb)
      modifies lkb`grmode, lkb`demoted, `state
      ensures lkb.grmode == NL && lkb.demoted
      ensures Valid() && state == ReplaceAll(old(state), lkb.View())
    {
      lkb.grmode := NL;
      lkb.demoted := true;
      Record(lkb);
    }

    lemma Recorded(lkb: Lkb)
      requires Valid() && Sole(lkb)
      ensures ReplaceAll(state, lkb.View()) == state
    {
      SameRecord(grantqueue, state.grant, Granted, lkb);
      SameRecord(convertqueue, state.convert, Converting, lkb);
      SameRecord(waitqueue, state.wait, Waiting, lkb);
    }

    /** Ask for the alternative mode, and take it back if that does not help. */
    method TryAltMode(lkb: Lkb, now: bool, alt: Mode) returns (rv: bool)
      requires Valid() && Sole(lkb)
      modifies lkb`rqmode, lkb`altmode, `state
      ensures rv == Grantable(old(state), old(lkb.View()).(rq := alt), now)
      ensures lkb.View() == if rv then old(lkb.View()).(rq := alt, altmode := true) else old(lkb.View())
      ensures Valid() && state == ReplaceAll(old(state), lkb.View())
    {
      ghost var r, l := state, lkb.View();
      var rqmode := lkb.rqmode;
      SetRqmode(lkb, alt);
      OwnRecord(r, lkb.View(), now);
      rv := CanBeGrantedNow(lkb, now);
      if rv {
        SetAltmode(lkb);
      } else {
        SetRqmode(lkb, rqmode);
      }
      ReplaceTwice(r, l.(rq := alt), lkb.View());
    }

    /** The test with its side effects: it may demote the lock or change the mode it asks for. */
    method CanBeGranted(lkb: Lkb, now: bool) returns (rv: bool, deadlk: bool)
      requires Valid() && Sole(lkb)
      modifies lkb`rqmode, lkb`altmode, lkb`grmode, lkb`demoted, `state
      ensures Verdict(rv, lkb.View(), deadlk) == Judge(old(state), old(lkb.View()), now)
      ensures Valid() && state == ReplaceAll(old(state), lkb.View())
    {
      rv := CanBeGrantedNow(lkb, now);
      if rv {
        Recorded(lkb);
        return true, false;
      }
      var d := false;
      if lkb.grmode != IV && !lkb.exflags.noqueue {
        d := ConversionDeadlockDetect(lkb);
      }
      if !d {
        rv := TryAlternative(lkb, now);
        return rv, false;
      }
      if lkb.exflags.convdeadlk {
        Demote(lkb);
        return false, false;
      }
      Recorded(lkb);
      return false, true;
    }

    /** Try the alternative mode, if the flags name one. */
    method TryAlternative(lkb: Lkb, now: bool) returns (rv: bool)
      requires Valid() && Sole(lkb)
      modifies lkb`rqmode, lkb`altmode, `state
      ensures var l := old(lkb.View()); var alt := AltMode(l.rq, l.flags);
        && rv == (alt != NL && Grantable(old(state), l.(rq := alt), now))
        && lkb.View() == if rv then l.(rq := alt, altmode := true) else l
      ensures Valid() && state == ReplaceAll(old(state), lkb.View())
    {
      var alt := NL;
      if lkb.rqmode != PR && lkb.exflags.altpr {
        alt := PR;
      } else if lkb.rqmode != CW && lkb.exflags.altcw {
        alt := CW;
      }
      if alt == NL {
        Recorded(lkb);
        return false;
      }
      rv := TryAltMode(lkb, now, alt);
    }

    // ----- moving lock blocks between the lists

    ghost function Members(): set<Lkb>
      reads `grantqueue, `convertqueue, `waitqueue
    {
      Elems(grantqueue) + Elems(convertqueue) + Elems(waitqueue)
    }

    /** Where the lock block goes: before the first entry that asks for less. */
    method LkbAddOrdered(head: seq<Lkb>, mode: Mode, ghost v: seq<Lock>, ghost l: Lock) returns (i: nat)
      requires Reads(head, v, Granted)
      ensures i <= |head| && InsertOrdered(v, l, mode) == v[..i] + [l] + v[i..]
    {
      i := 0;
      while i < |head| && head[i].rqmode >= mode
        invariant i <= |head|
        invariant forall k :: 0 <= k < i ==> v[k].rq >= mode
      {
        i := i + 1;
      }
      InsertAt(v, i, l, mode);
    }

    /** Not on any list: then a new status word cannot be seen through one. */
    ghost predicate Off(lkb: Lkb)
      reads `grantqueue, `convertqueue, `waitqueue
    {
      lkb !in grantqueue && lkb !in convertqueue && lkb !in waitqueue
    }

    lemma UnknownIsOff(lkb: Lkb)
      requires Valid() && !Known(state, lkb.id)
      ensures Off(lkb) && Sole(lkb)
    {
      NameIsKnown(grantqueue, state.grant, Granted, lkb.id);
      NameIsKnown(convertqueue, state.convert, Converting, lkb.id);
      NameIsKnown(waitqueue, state.wait, Waiting, lkb.id);
    }

    method SetStatus(lkb: Lkb, sts: Status)
      requires Valid() && Off(lkb)
      modifies lkb`status
      ensures Valid() && lkb.status == OnQueue(sts)
    {
      lkb.status := OnQueue(sts);
    }

    method AddGranted(lkb: Lkb)
      requires Valid() && Off(lkb) && IdsUnique(Placed(state, lkb.View(), Granted))
      modifies `grantqueue, `state, lkb`status
      ensures Valid() && lkb.status == OnQueue(Granted)
      ensures Elems(grantqueue) == Elems(old(grantqueue)) + {lkb}
      ensures state == Placed(old(state), lkb.View(), Granted)
    {
      ghost var r := state;
      var i := LkbAddOrdered(grantqueue, lkb.grmode, state.grant, lkb.View());
      SetStatus(lkb, Granted);
      Spliced(grantqueue, state.grant, Granted, i, lkb);
      grantqueue := ListInsert(grantqueue, i, lkb);
      state := Placed(r, lkb.View(), Granted);
    }

    method AddConverting(lkb: Lkb)
      requires Valid() && Off(lkb) && IdsUnique(Placed(state, lkb.View(), Converting))
      modifies `convertqueue, `state, lkb`status
      ensures Valid() && lkb.status == OnQueue(Converting)
      ensures Elems(convertqueue) == Elems(old(convertqueue)) + {lkb}
      ensures state == Placed(old(state), lkb.View(), Converting)
    {
      ghost var r := state;
      SetStatus(lkb, Converting);
      Enqueued(convertqueue, state.convert, Converting, lkb);
      convertqueue := ListAdd(convertqueue, lkb, lkb.exflags.headque);
      state := Placed(r, lkb.View(), Converting);
    }

    method AddWaiting(lkb: Lkb)
      requires Valid() && Off(lkb) && IdsUnique(Placed(state, lkb.View(), Waiting))
      modifies `waitqueue, `state, lkb`status
      ensures Valid() && lkb.status == OnQueue(Waiting)
      ensures Elems(waitqueue) == Elems(old(waitqueue)) + {lkb}
      ensures state == Placed(old(state), lkb.View(), Waiting)
    {
      ghost var r := state;
      SetStatus(lkb, Waiting);
      Enqueued(waitqueue, state.wait, Waiting, lkb);
      waitqueue := ListAdd(waitqueue, lkb, lkb.exflags.headque);
      state := Placed(r, lkb.View(), Waiting);
    }

    method AddLkb(lkb: Lkb, sts: Status)
      requires Valid() && !Known(state, lkb.id) && lkb.status == NoQueue
      modifies this, lkb`status
      ensures Valid() && Members() == old(Members()) + {lkb}
      ensures lkb.status == OnQueue(sts)
      ensures state == Placed(old(state), lkb.View(), sts)
    {
      UnknownIsOff(lkb);
      PlacedUnique(state, lkb.View(), sts);
      match sts {
        case Granted => AddGranted(lkb);
        case Converting => AddConverting(lkb);
        case Waiting => AddWaiting(lkb);
      }
    }

    method ClearStatus(lkb: Lkb)
      requires Valid() && Off(lkb)
      modifies lkb`status
      ensures Valid() && lkb.status == NoQueue
    {
      lkb.status := NoQueue;
    }

    method DelGranted(lkb: Lkb)
      requires Valid() && lkb in grantqueue && OnlyIn(lkb, Granted)
      modifies `grantqueue, `state, lkb`status
      ensures Valid() && lkb.status == NoQueue && lkb.View() == old(lkb.View())
      ensures Members() == old(Members()) - {lkb}
      ensures state == DropAll(old(state), lkb.id)
    {
      ghost var r := state;
      DelPosition(grantqueue, state.grant, Granted, lkb);
      grantqueue := ListDel(grantqueue, Position(grantqueue, lkb));
      state := DropAll(r, lkb.id);
      ClearStatus(lkb);
    }

    method DelConverting(lkb: Lkb)
      requires Valid() && lkb in convertqueue && OnlyIn(lkb, Converting)
      modifies `convertqueue, `state, lkb`status
      ensures Valid() && lkb.status == NoQueue && lkb.View() == old(lkb.View())
      ensures Members() == old(Members()) - {lkb}
      ensures state == DropAll(old(state), lkb.id)
    {
      ghost var r := state;
      DelPosition(convertqueue, state.convert, Converting, lkb);
      convertqueue := ListDel(convertqueue, Position(convertqueue, lkb));
      state := DropAll(r, lkb.id);
      ClearStatus(lkb);
    }

    method DelWaiting(lkb: Lkb)
      requires Valid() && lkb in waitqueue && OnlyIn(lkb, Waiting)
      modifies `waitqueue, `state, lkb`status
      ensures Valid() && lkb.status == NoQueue && lkb.View() == old(lkb.View())
      ensures Elems(waitqueue) == Elems(old(waitqueue)) - {lkb}
      ensures state == DropAll(old(state), lkb.id)
    {
      ghost var r := state;
      DelPosition(waitqueue, state.wait, Waiting, lkb);
      waitqueue := ListDel(waitqueue, Position(waitqueue, lkb));
      state := DropAll(r, lkb.id);
      ClearStatus(lkb);
    }

    /** A lock block is on the list its status names, and on no other. */
    lemma StatusSays(lkb: Lkb)
      requires Valid() && lkb in Members()
      ensures lkb.status.OnQueue? && Sole(lkb)
      ensures lkb in grantqueue <==> lkb.status == OnQueue(Granted)
      ensures lkb in convertqueue <==> lkb.status == OnQueue(Converting)
      ensures lkb in waitqueue <==> lkb.status == OnQueue(Waiting)
    {
    }

    /** `lkb` is on the queue of status `st` and on no other, and can be taken off it. */
    ghost predicate OnlyIn(lkb: Lkb, st: Status)
      reads `grantqueue, `convertqueue, `waitqueue, `state
    {
      && IdsUnique(DropAll(state, lkb.id))
      && (st != Granted ==> lkb !in grantqueue && !Has(state.grant, lkb.id))
      && (st != Converting ==> lkb !in convertqueue && !Has(state.convert, lkb.id))
      && (st != Waiting ==> lkb !in waitqueue && !Has(state.wait, lkb.id))
    }

    lemma InOnePlace(lkb: Lkb)
      requires Valid() && lkb in Members()
      ensures lkb.status.OnQueue? && OnlyIn(lkb, lkb.status.status)
      ensures !Known(DropAll(state, lkb.id), lkb.id)
    {
      StatusSays(lkb);
      NameIsKnown(grantqueue, state.grant, Granted, lkb.id);
      NameIsKnown(convertqueue, state.convert, Converting, lkb.id);
      NameIsKnown(waitqueue, state.wait, Waiting, lkb.id);
      DropUnique(state, lkb.id);
    }

    method DelLkb(lkb: Lkb)
      requires Valid() && lkb in Members()
      modifies this, lkb`status
      ensures Valid() && Members() == old(Members()) - {lkb}
      ensures lkb.status == NoQueue && lkb.View() == old(lkb.View()) && !Known(state, lkb.id)
      ensures state == DropAll(old(state), lkb.id)
    {
      InOnePlace(lkb);
      if lkb.status == OnQueue(Granted) {
        DelGranted(lkb);
      } else if lkb.status == OnQueue(Converting) {
        DelConverting(lkb);
      } else {
        DelWaiting(lkb);
      }
    }

    // ----- granting

    /** The lock block is on one of the lists, or new here. */
    ghost predicate Placeable(lkb: Lkb)
      reads this, lkb`status
    {
      lkb in Members() || (lkb.status == NoQueue && !Known(state, lkb.id))
    }

    method MoveLkb(lkb: Lkb, sts: Status)
      requires Valid() && lkb in Members()
      modifies this, lkb`status
      ensures Valid() && Members() == old(Members()) && lkb.status == OnQueue(sts)
      ensures state == Placed(DropAll(old(state), lkb.id), lkb.View(), sts)
    {
      PutBack(Members(), lkb);
      DelLkb(lkb);
      AddLkb(lkb, sts);
    }

    lemma PlaceableAlone(lkb: Lkb)
      requires Valid() && Placeable(lkb)
      ensures Sole(lkb)
      ensures lkb !in Members() ==> lkb.status == NoQueue && !Known(state, lkb.id)
      ensures lkb in Members() ==> lkb.status != NoQueue
    {
      if lkb in Members() {
        StatusSays(lkb);
      } else {
        UnknownIsOff(lkb);
      }
    }

    method PlaceGranted(lkb: Lkb)
      requires Valid() && Placeable(lkb)
      modifies this, lkb`status
      ensures Valid() && Members() == old(Members()) + {lkb} && lkb.status == OnQueue(Granted)
      ensures state == Placed(DropAll(old(state), lkb.id), lkb.View(), Granted)
      ensures Sole(lkb)
    {
      PlaceableAlone(lkb);
      DropUnique(state, lkb.id);
      if lkb.status != NoQueue {
        MoveLkb(lkb, Granted);
      } else {
        AddLkb(lkb, Granted);
      }
      StatusSays(lkb);
    }

    /** The mode is recorded first, and then the block is moved or added to the granted queue. */
    method MoveAsGranted(lkb: Lkb)
      requires Valid() && Placeable(lkb)
      modifies this, lkb`status, lkb`grmode
      ensures Valid() && Members() == old(Members()) + {lkb} && lkb.status == OnQueue(Granted)
      ensures Sole(lkb) && lkb.grmode == lkb.rqmode
      ensures state == Placed(DropAll(old(state), lkb.id), lkb.View(), Granted)
    {
      RecordMode(lkb);
      PlaceGranted(lkb);
    }

    /** A new mode does not change what taking the block off the queues would leave. */
    method RecordMode(lkb: Lkb)
      requires Valid() && Placeable(lkb)
      modifies lkb`grmode, `state
      ensures Valid() && Placeable(lkb) && lkb.grmode == lkb.rqmode
      ensures DropAll(state, lkb.id) == DropAll(old(state), lkb.id)
    {
      ghost var r := state;
      PlaceableAlone(lkb);
      SetGrmode(lkb, lkb.rqmode);
      ReplacedThenDropped(r, lkb.View());
    }

    method GrantByMove(lkb: Lkb)
      requires Valid() && Placeable(lkb) && lkb.grmode != lkb.rqmode
      modifies this, lkb`status, lkb`grmode, lkb`rqmode
      ensures Valid() && Members() == old(Members()) + {lkb} && lkb.status == OnQueue(Granted)
      ensures lkb.grmode == old(lkb.rqmode) && lkb.rqmode == IV
      ensures state == GrantAny(old(state), old(lkb.View()))
    {
      ghost var l := lkb.View();
      GrantedByMove(state, l);
      MoveAsGranted(lkb);
      assert lkb.View() == l.(gr := l.rq);
      SetRqmode(lkb, IV);
      assert lkb.View() == AfterGrant(l);
    }

    method GrantLock(lkb: Lkb)
      requires Valid() && Placeable(lkb)
      modifies this, lkb`status, lkb`grmode, lkb`rqmode
      ensures Valid() && lkb.View() == AfterGrant(old(lkb.View()))
      ensures state == GrantAny(old(state), old(lkb.View()))
      ensures if old(lkb.grmode != lkb.rqmode) then Members() == old(Members()) + {lkb}
        && lkb.status == OnQueue(Granted)
        else Members() == old(Members()) && lkb.status == old(lkb.status)
    {
      if lkb.grmode != lkb.rqmode {
        GrantByMove(lkb);
      } else {
        PlaceableAlone(lkb);
        SetRqmode(lkb, IV);
      }
    }

    // ----- re-examining the queues

    /** Test one queued lock block and grant it if it passes. */
    method Examine(lkb: Lkb) returns (granted: bool, demoted: bool, moved: bool)
      requires Valid() && lkb in Members()
      modifies this, lkb
      ensures Valid() && Members() == old(Members())
      ensures var l := old(lkb.View()); var v := Judge(old(state), l, false); var r := ReplaceAll(old(state), v.lock);
        && granted == v.granted && demoted == (!v.granted && !l.demoted && v.lock.demoted)
        && moved == (v.granted && v.lock.gr != v.lock.rq)
        && state == if v.granted then GrantAny(r, v.lock) else r
    {
      StatusSays(lkb);
      var wasDemoted := lkb.demoted;
      var deadlk;
      granted, deadlk := CanBeGranted(lkb, false);
      demoted := !granted && !wasDemoted && lkb.demoted;
      moved := granted && lkb.grmode != lkb.rqmode;
      if granted {
        GrantMember(lkb);
      }
    }

    method GrantMember(lkb: Lkb)
      requires Valid() && lkb in Members()
      modifies this, lkb`status, lkb`grmode, lkb`rqmode
      ensures Valid() && Members() == old(Members())
      ensures state == GrantAny(old(state), old(lkb.View()))
    {
      GrantLock(lkb);
    }

    /** One entry of the convert queue; a block that left the queue makes room for the next. */
    method ExamineConvert(i: nat) returns (granted: bool, demoted: bool, next: nat)
      requires Valid() && i < |convertqueue|
      modifies this, Members()
      ensures Valid() && Members() == old(Members())
      ensures var v := Judge(old(state), old(state).convert[i], false);
        && granted == v.granted
        && demoted == (!v.granted && !old(state).convert[i].demoted && v.lock.demoted)
        && state == (if v.granted then GrantConvert(old(state), i, v.lock)
                     else old(state).(convert := old(state).convert[i := v.lock]))
        && next == if v.granted && v.lock.gr != v.lock.rq then i else i + 1
    {
      var lkb := convertqueue[i];
      GrantConvertAgrees(state, i, Judge(state, lkb.View(), false).lock);
      var moved;
      granted, demoted, moved := Examine(lkb);
      next := if moved then i else i + 1;
    }

    /** One walk over the convert queue. */
    method WalkConvert() returns (grantRestart: bool, demoteRestart: bool, grants: seq<LkId>)
      requires Valid() && Live(state.convert)
      modifies this, Members()
      ensures Valid() && Members() == old(Members())
      ensures Pass(state, grantRestart, demoteRestart, grants) == ConvertPass(old(state), 0)
    {
      grantRestart, demoteRestart, grants := false, false, [];
      var i: nat := 0;
      while i < |convertqueue|
        invariant Valid() && Members() == old(Members())
        invariant i <= |convertqueue| && Live(state.convert)
        invariant Joined(grantRestart, demoteRestart, grants, ConvertPass(state, i)) == ConvertPass(old(state), 0)
        decreases |convertqueue| - i
      {
        WalkUnfolds(grantRestart, demoteRestart, grants, state, i);
        var id := convertqueue[i].id;
        var granted, demoted, next := ExamineConvert(i);
        i := next;
        if granted {
          grantRestart := true;
          grants := grants + [id];
        }
        demoteRestart := demoteRestart || demoted;
      }
    }

    /** One entry of the wait queue. */
    method ExamineWait(i: nat) returns (granted: bool, next: nat)
      requires Valid() && i < |waitqueue|
      modifies this, Members()
      ensures Valid() && Members() == old(Members())
      ensures var v := Judge(old(state), old(state).wait[i], false);
        && granted == v.granted
        && state == (if v.granted then GrantWait(old(state), i, v.lock)
                     else old(state).(wait := old(state).wait[i := v.lock]))
        && next == if v.granted && v.lock.gr != v.lock.rq then i else i + 1
    {
      var lkb := waitqueue[i];
      GrantWaitAgrees(state, i, Judge(state, lkb.View(), false).lock);
      var demoted, moved;
      granted, demoted, moved := Examine(lkb);
      next := if moved then i else i + 1;
    }

    method GrantPendingConvert() returns (grants: seq<LkId>)
      requires Valid() && Live(state.convert)
      modifies this, Members()
      ensures Valid() && Members() == old(Members())
      ensures Settled(state, grants) == SettleConvert(old(state), false)
    {
      grants := [];
      var quit, restart := false, true;
      while restart
        invariant Valid() && Members() == old(Members()) && Live(state.convert)
        invariant SettleConvert(old(state), false)
          == if restart then Ahead(grants, SettleConvert(state, quit)) else Settled(state, grants)
        decreases restart, Weight(state.convert), !quit
      {
        SettleUnfolds(grants, state, quit);
        var grantRestart, demoteRestart, some := WalkConvert();
        grants := grants + some;
        restart := grantRestart || (demoteRestart && !quit);
        if !grantRestart && demoteRestart {
          quit := true;
        }
      }
    }

    method GrantPendingWait() returns (grants: seq<LkId>)
      requires Valid()
      modifies this, Members()
      ensures Valid() && Members() == old(Members())
      ensures Settled(state, grants) == WaitPass(old(state), 0)
    {
      grants := [];
      var i: nat := 0;
      while i < |waitqueue|
        invariant Valid() && Members() == old(Members())
        invariant i <= |waitqueue|
        invariant Ahead(grants, WaitPass(state, i)) == WaitPass(old(state), 0)
        decreases |waitqueue| - i
      {
        WaitUnfolds(grants, state, i);
        var id := waitqueue[i].id;
        var granted, next := ExamineWait(i);
        i := next;
        if granted {
          grants := grants + [id];
        }
      }
    }

    method GrantPendingLocks() returns (grants: seq<LkId>)
      requires Valid() && Live(state.convert)
      modifies this, Members()
      ensures Valid() && Members() == old(Members())
      ensures Settled(state, grants) == SettleAll(old(state))
    {
      var c := GrantPendingConvert();
      var w := GrantPendingWait();
      grants := c + w;
    }

    // ----- the four operations

    /** The test for a lock block that is not on any list yet leaves the lists alone. */
    method CanBeGrantedNew(lkb: Lkb) returns (granted: bool)
      requires Valid() && lkb.status == NoQueue && !Known(state, lkb.id)
      requires lkb.grmode == IV && lkb.rqmode != IV
      modifies lkb`rqmode, lkb`altmode, lkb`grmode, lkb`demoted, `state
      ensures Valid() && state == old(state)
      ensures lkb.grmode != lkb.rqmode
      ensures var v := Judge(state, old(lkb.View()), true);
        granted == v.granted && lkb.View() == v.lock
    {
      UnknownIsOff(lkb);
      var deadlk;
      granted, deadlk := CanBeGranted(lkb, true);
    }

    method DoRequest(lkb: Lkb) returns (rc: Rc)
      requires Valid() && lkb.status == NoQueue && !Known(state, lkb.id)
      requires lkb.grmode == IV && lkb.rqmode != IV
      modifies this, lkb
      ensures Valid()
      ensures Outcome(state, rc, [], []) == Resource.DoRequest(old(state), old(lkb.View()))
      ensures Members() == if rc == Again then old(Members()) else old(Members()) + {lkb}
    {
      var granted := CanBeGrantedNew(lkb);
      GrantHereAgrees(state, lkb.View());
      if granted {
        GrantLock(lkb);
        return Ok;
      }
      if !lkb.exflags.noqueue {
        AddLkb(lkb, Waiting);
        return InProgress;
      }
      return Again;
    }

    method SetArgs(lkb: Lkb, mode: Mode, flags: Flags)
      requires Valid() && Sole(lkb)
      modifies lkb`rqmode, lkb`exflags, lkb`demoted, lkb`altmode, `state
      ensures lkb.View() == SetConvert(old(lkb.View()), mode, flags)
      ensures Valid() && state == ReplaceAll(old(state), lkb.View())
    {
      lkb.rqmode, lkb.exflags := mode, flags;
      lkb.demoted, lkb.altmode := false, false;
      Record(lkb);
    }

    /** What a lock block on the granted queue looks like from the lists. */
    lemma OnGranted(lkb: Lkb)
      requires Valid() && lkb in Members() && lkb.status == OnQueue(Granted)
      ensures lkb in grantqueue && Sole(lkb)
      ensures lkb.View() in state.grant && Has(state.grant, lkb.id)
      ensures state.grant[Index(state.grant, lkb.id)] == lkb.View()
      ensures !Has(state.convert, lkb.id) && !Has(state.wait, lkb.id)
    {
      StatusSays(lkb);
      var i :| 0 <= i < |grantqueue| && grantqueue[i] == lkb;
      assert state.grant[i] == lkb.View();
      DropUnique(state, lkb.id);
    }

    /** Conversions that were queued may be granted now; the lock block that was demoted stays where it is. */
    method GrantOthersFirst(lkb: Lkb) returns (grants: seq<LkId>)
      requires Valid() && Live(state.convert) && lkb in Members() && lkb.status == OnQueue(Granted)
      modifies this, Members()
      ensures Valid() && Members() == old(Members()) && lkb.status == OnQueue(Granted)
      ensures lkb.View() == old(lkb.View())
      ensures Settled(state, grants) == SettleConvert(old(state), false)
    {
      ghost var l := lkb.View();
      OnGranted(lkb);
      SettleConvertKeeps(state, false);
      grants := GrantPendingConvert();
      StatusSays(lkb);
      StillGranted(lkb, l);
    }

    lemma StillGranted(lkb: Lkb, l: Lock)
      requires Valid() && l in state.grant && l.id == lkb.id && Sole(lkb)
      ensures lkb.View() == l && lkb.status == OnQueue(Granted)
    {
      var i :| 0 <= i < |state.grant| && state.grant[i] == l;
      assert grantqueue[i].id == lkb.id;
    }

    method ClearGrmode(lkb: Lkb)
      requires Valid() && !Known(state, lkb.id)
      modifies lkb`grmode
      ensures Valid() && Members() == old(Members()) && lkb.View() == old(lkb.View()).(gr := IV)
    {
      UnknownIsOff(lkb);
      lkb.grmode := IV;
    }

    /** Give up what is being asked for; a queued conversion goes back to the granted queue. */
    method RevertLock(lkb: Lkb) returns (rv: int)
      requires Valid() && lkb in Members()
      modifies this, lkb`status, lkb`grmode, lkb`rqmode
      ensures Valid()
      ensures lkb.View() == old(lkb.View()).(rq := IV, gr := if rv == -1 then IV else old(lkb.grmode))
      ensures old(lkb.status) == OnQueue(Granted) ==>
        rv == 0 && Members() == old(Members()) && state == ReplaceAll(old(state), lkb.View())
      ensures old(lkb.status) == OnQueue(Converting) ==>
        rv == 1 && Members() == old(Members())
        && state == Placed(DropAll(old(state), lkb.id), lkb.View(), Granted)
      ensures old(lkb.status) == OnQueue(Waiting) ==>
        rv == -1 && Members() == old(Members()) - {lkb} && state == DropAll(old(state), lkb.id)
    {
      if lkb.status == OnQueue(Converting) {
        RevertConverting(lkb);
        rv := 1;
      } else if lkb.status == OnQueue(Waiting) {
        RevertWaiting(lkb);
        rv := -1;
      } else {
        GiveUpMode(lkb);
        rv := 0;
      }
    }

    method RevertConverting(lkb: Lkb)
      requires Valid() && lkb in Members() && lkb.status == OnQueue(Converting)
      modifies this, lkb`status, lkb`rqmode
      ensures Valid() && Members() == old(Members()) && lkb.View() == old(lkb.View()).(rq := IV)
      ensures state == Placed(DropAll(old(state), lkb.id), lkb.View(), Granted)
    {
      GiveUpMode(lkb);
      MoveLkb(lkb, Granted);
    }

    method RevertWaiting(lkb: Lkb)
      requires Valid() && lkb in Members() && lkb.status == OnQueue(Waiting)
      modifies this, lkb`status, lkb`grmode, lkb`rqmode
      ensures Valid() && Members() == old(Members()) - {lkb} && lkb.View() == old(lkb.View()).(rq := IV, gr := IV)
      ensures state == DropAll(old(state), lkb.id)
    {
      GiveUpMode(lkb);
      TakeOff(lkb);
    }

    /** The block asks for nothing any more; that does not change what taking it off the queues would leave. */
    method GiveUpMode(lkb: Lkb)
      requires Valid() && lkb in Members()
      modifies lkb`rqmode, `state
      ensures Valid() && lkb.View() == old(lkb.View()).(rq := IV) && Members() == old(Members())
      ensures lkb.status.OnQueue?
      ensures state == ReplaceAll(old(state), lkb.View()) && DropAll(state, lkb.id) == DropAll(old(state), lkb.id)
    {
      RevertKeeps(lkb);
      SetRqmode(lkb, IV);
    }

    lemma RevertKeeps(lkb: Lkb)
      requires Valid() && lkb in Members()
      ensures lkb.status.OnQueue? && Sole(lkb)
      ensures forall l: Lock :: l.id == lkb.id ==> DropAll(ReplaceAll(state, l), l.id) == DropAll(state, l.id)
    {
      StatusSays(lkb);
      forall l: Lock | l.id == lkb.id ensures DropAll(ReplaceAll(state, l), l.id) == DropAll(state, l.id) {
        ReplacedThenDropped(state, l);
      }
    }

    method TakeOff(lkb: Lkb)
      requires Valid() && lkb in Members()
      modifies this, lkb`status, lkb`grmode
      ensures Valid() && lkb.View() == old(lkb.View()).(gr := IV)
      ensures Members() == old(Members()) - {lkb} && state == DropAll(old(state), lkb.id)
    {
      DelLkb(lkb);
      ClearGrmode(lkb);
    }

    method GrantInPlace(lkb: Lkb)
      requires Valid() && lkb in Members() && lkb.status == OnQueue(Granted)
      modifies this, lkb`status, lkb`grmode, lkb`rqmode
      ensures Valid() && Members() == old(Members())
      ensures state == GrantHere(old(state), old(lkb.View()))
    {
      OnGranted(lkb);
      GrantHereAgrees(state, lkb.View());
      GrantLock(lkb);
    }

    method MoveToConvert(lkb: Lkb)
      requires Valid() && lkb in Members() && lkb.status == OnQueue(Granted)
      modifies this, lkb`status
      ensures Valid() && Members() == old(Members())
      ensures state == old(state).(grant := Drop(old(state).grant, lkb.id),
                                   convert := Enqueue(old(state).convert, lkb.View()))
    {
      OnGranted(lkb);
      MoveLkb(lkb, Converting);
    }

    /** A demotion lets others in first, and perhaps this lock after all. */
    method RetryDemoted(lkb: Lkb) returns (granted: bool, grants: seq<LkId>)
      requires Valid() && Live(state.convert) && lkb in Members() && lkb.status == OnQueue(Granted)
      modifies this, Members()
      ensures Valid() && Members() == old(Members())
      ensures var s := SettleConvert(old(state), false); var l := old(lkb.View());
        && grants == s.grants && granted == Grantable(s.res, l, true)
        && state == (if granted then GrantHere(s.res, l) else s.res)
        && (!granted ==> lkb.View() == l && lkb.status == OnQueue(Granted))
    {
      grants := GrantOthersFirst(lkb);
      OnGranted(lkb);
      granted := CanBeGrantedNow(lkb, true);
      if granted {
        GrantInPlace(lkb);
      }
    }

    /** The second half of a conversion that was not granted at once: it is queued, if it may be. */
    method ConvertTail(lkb: Lkb) returns (rc: Rc, grants: seq<LkId>)
      requires Valid() && Live(state.convert) && lkb in Members() && lkb.status == OnQueue(Granted)
      modifies this, Members()
      ensures Valid() && Members() == old(Members())
      ensures Outcome(state, rc, grants, []) == ConvertRest(old(state), old(lkb.View()))
    {
      grants := [];
      if lkb.demoted {
        var granted;
        granted, grants := RetryDemoted(lkb);
        if granted {
          return Ok, grants;
        }
      }
      if !lkb.exflags.noqueue {
        MoveToConvert(lkb);
        return InProgress, grants;
      }
      return Again, grants;
    }

    method DoConvert(lkb: Lkb) returns (rc: Rc, grants: seq<LkId>)
      requires Valid() && Live(state.convert) && lkb in Members() && lkb.status == OnQueue(Granted)
      modifies this, Members()
      ensures Valid() && Members() == old(Members())
      ensures Outcome(state, rc, grants, []) == ConvertNow(old(state), old(lkb.View()))
    {
      ghost var r := state;
      OnGranted(lkb);
      var granted, deadlk := CanBeGranted(lkb, true);
      ConvertNowSplits(r, lkb.View());
      if granted {
        GrantInPlace(lkb);
        return Ok, [];
      }
      if deadlk && !lkb.exflags.nodlckwt {
        var rv := RevertLock(lkb);
        return Deadlk, [];
      }
      rc, grants := ConvertTail(lkb);
    }

    /** A conversion with its argument check and the effects that follow it. */
    method ConvertLock(lkb: Lkb, mode: Mode, flags: Flags) returns (rc: Rc, before: seq<LkId>, after: seq<LkId>)
      requires Valid() && Live(state.convert) && lkb in Members()
      modifies this, Members()
      ensures Valid() && Members() == old(Members())
      ensures Outcome(state, rc, before, after) == Resource.DoConvert(old(state), lkb.id, mode, flags)
    {
      MemberIsKnown(lkb);
      if lkb.status != OnQueue(Granted) {
        return Busy, [], [];
      }
      OnGranted(lkb);
      GrantHereAgrees(state, SetConvert(lkb.View(), mode, flags));
      SetArgs(lkb, mode, flags);
      rc, before := DoConvert(lkb);
      after := [];
      if rc == Ok {
        after := GrantPendingLocks();
      }
    }

    lemma RecordIs(lkb: Lkb)
      requires Valid() && lkb in Members()
      ensures lkb in grantqueue ==> state.grant[Index(state.grant, lkb.id)] == lkb.View()
      ensures lkb in convertqueue ==> state.convert[Index(state.convert, lkb.id)] == lkb.View()
    {
    }

    lemma MemberIsKnown(lkb: Lkb)
      requires Valid() && lkb in Members()
      ensures lkb.status.OnQueue? && Known(state, lkb.id)
      ensures Has(state.grant, lkb.id) <==> lkb.status == OnQueue(Granted)
      ensures Has(state.convert, lkb.id) <==> lkb.status == OnQueue(Converting)
      ensures Has(state.wait, lkb.id) <==> lkb.status == OnQueue(Waiting)
    {
      StatusSays(lkb);
      NameIsKnown(grantqueue, state.grant, Granted, lkb.id);
      NameIsKnown(convertqueue, state.convert, Converting, lkb.id);
      NameIsKnown(waitqueue, state.wait, Waiting, lkb.id);
    }

    /** The three ways a cancel can go, as the lists see them. */
    lemma Cancelling(lkb: Lkb)
      requires Valid() && Live(state.convert) && lkb in Members()
      ensures Live(DropAll(state, lkb.id).convert)
      ensures var l := lkb.View().(rq := IV);
        Resource.DoCancel(state, lkb.id)
        == if lkb.status == OnQueue(Granted) then Outcome(ReplaceAll(state, l), Nothing, [], [])
           else if lkb.status == OnQueue(Converting) then Settling(Placed(DropAll(state, lkb.id), l, Granted))
           else Settling(DropAll(state, lkb.id))
    {
      MemberIsKnown(lkb);
      RecordIs(lkb);
    }

    method UnlockLock(lkb: Lkb) returns (rc: Rc, after: seq<LkId>)
      requires Valid() && Live(state.convert) && lkb in Members()
      modifies this, Members()
      ensures Valid() && Members() == old(Members()) - {lkb}
      ensures Outcome(state, rc, [], after) == Resource.DoUnlock(old(state), lkb.id)
    {
      MemberIsKnown(lkb);
      DroppedLive(state, lkb.id);
      TakeOff(lkb);
      after := GrantPendingLocks();
      return Unlocked, after;
    }

    /** Cancelling what a lock is waiting for. */
    method CancelLock(lkb: Lkb) returns (rc: Rc, after: seq<LkId>)
      requires Valid() && Live(state.convert) && lkb in Members()
      modifies this, Members()
      ensures Valid()
      ensures Outcome(state, rc, [], after) == Resource.DoCancel(old(state), lkb.id)
    {
      StatusSays(lkb);
      Cancelling(lkb);
      var rv := RevertLock(lkb);
      after := [];
      if rv == 0 {
        return Nothing, after;
      }
      after := GrantPendingLocks();
      return Cancelled, after;
    }
  }

  lemma PutBack(s: set<Lkb>, x: Lkb)
    requires x in s
    ensures s - {x} + {x} == s
  {
  }

  lemma ReplacedThenDropped(r: Res, l: Lock)
    ensures DropAll(ReplaceAll(r, l), l.id) == DropAll(r, l.id)
    ensures Known(ReplaceAll(r, l), l.id) == Known(r, l.id)
  {
    SameIndex(r.grant, l);
    SameIndex(r.convert, l);
    SameIndex(r.wait, l);
  }

  lemma PlacedThenReplaced(r: Res, l: Lock, m: Lock)
    requires !Known(r, l.id) && l.id == m.id
    ensures ReplaceAll(Placed(r, l, Granted), m) == r.(grant := InsertOrdered(r.grant, m, l.gr))
  {
    InsertedThenReplaced(r.grant, l, m, l.gr);
  }

  lemma GrantedByMove(r: Res, l: Lock)
    requires IdsUnique(r) && l.gr != l.rq
    ensures ReplaceAll(Placed(DropAll(r, l.id), l.(gr := l.rq), Granted), AfterGrant(l)) == GrantAny(r, l)
  {
    DropUnique(r, l.id);
    PlacedThenReplaced(DropAll(r, l.id), l.(gr := l.rq), AfterGrant(l));
  }

  /** A walk, of which the first part is summed up in three variables. */
  ghost function Joined(granted: bool, demoted: bool, grants: seq<LkId>, p: Pass): Pass {
    Pass(p.res, granted || p.granted, demoted || p.demoted, grants + p.grants)
  }

  lemma WalkUnfolds(granted: bool, demoted: bool, grants: seq<LkId>, r: Res, i: nat)
    requires Live(r.convert) && i < |r.convert|
    ensures var l := r.convert[i];
      var v := Judge(r, l, false);
      var s := if v.granted then GrantConvert(r, i, v.lock) else r.(convert := r.convert[i := v.lock]);
      var k := if v.granted && v.lock.gr != v.lock.rq then i else i + 1;
      && Live(s.convert) && k <= |s.convert| && |s.convert| - k == |r.convert| - i - 1
      && Joined(granted, demoted, grants, ConvertPass(r, i))
         == Joined(granted || v.granted, demoted || (!v.granted && !l.demoted && v.lock.demoted),
                   if v.granted then grants + [l.id] else grants, ConvertPass(s, k))
  {
    var l := r.convert[i];
    var (s, k) := ConvertStep(r, i);
    var p := ConvertPass(s, k);
    assert grants + ([l.id] + p.grants) == (grants + [l.id]) + p.grants;
  }

  ghost function Ahead(grants: seq<LkId>, s: Settled): Settled {
    Settled(s.res, grants + s.grants)
  }

  lemma SettleUnfolds(grants: seq<LkId>, r: Res, quit: bool)
    requires Live(r.convert)
    ensures var p := ConvertPass(r, 0);
      Ahead(grants, SettleConvert(r, quit))
      == if p.granted || (p.demoted && !quit) then Ahead(grants + p.grants, SettleConvert(p.res, !p.granted || quit))
         else Settled(p.res, grants + p.grants)
  {
    var p := ConvertPass(r, 0);
    if p.granted || (p.demoted && !quit) {
      var s := SettleConvert(p.res, !p.granted || quit);
      assert grants + (p.grants + s.grants) == (grants + p.grants) + s.grants;
    }
  }

  lemma WaitUnfolds(grants: seq<LkId>, r: Res, i: nat)
    requires i < |r.wait|
    ensures var l := r.wait[i];
      var v := Judge(r, l, false);
      var s := if v.granted then GrantWait(r, i, v.lock) else r.(wait := r.wait[i := v.lock]);
      var k := if v.granted && v.lock.gr != v.lock.rq then i else i + 1;
      && k <= |s.wait| && |s.wait| - k == |r.wait| - i - 1
      && Ahead(grants, WaitPass(r, i)) == Ahead(if v.granted then grants + [l.id] else grants, WaitPass(s, k))
  {
    var l := r.wait[i];
    var v := Judge(r, l, false);
    if v.granted {
      var s := WaitPass(GrantWait(r, i, v.lock), if v.lock.gr != v.lock.rq then i else i + 1);
      assert grants + ([l.id] + s.grants) == (grants + [l.id]) + s.grants;
    }
  }

  lemma {:induction false} ConvertPassKeeps(r: Res, i: nat)
    requires Live(r.convert) && i <= |r.convert|
    ensures forall l :: l in r.grant ==> l in ConvertPass(r, i).res.grant
    decreases |r.convert| - i
  {
    if i < |r.convert| {
      var v := Judge(r, r.convert[i], false);
      InsertOrderedMembers(r.grant, AfterGrant(v.lock), v.lock.rq);
      ConvertPassKeeps(ConvertStep(r, i).0, ConvertStep(r, i).1);
    }
  }

  lemma {:induction false} SettleConvertKeeps(r: Res, quit: bool)
    requires Live(r.convert)
    ensures forall l :: l in r.grant ==> l in SettleConvert(r, quit).res.grant
    decreases Weight(r.convert), !quit
  {
    ConvertPassKeeps(r, 0);
    var p := ConvertPass(r, 0);
    if p.granted || (p.demoted && !quit) {
      SettleConvertKeeps(p.res, !p.granted || quit);
    }
  }

  /** The test rewrites the record of the lock, wherever it is; a lock on the granted queue has no other. */
  lemma ConvertNowSplits(r: Res, m: Lock)
    requires !Has(r.convert, m.id) && !Has(r.wait, m.id)
    ensures ReplaceAll(r, m) == r.(grant := Replace(r.grant, m))
    ensures GrantHere(ReplaceAll(r, m), m) == GrantHere(r, m)
    ensures ReplaceAll(ReplaceAll(r, m), m.(rq := IV)) == r.(grant := Replace(r.grant, m.(rq := IV)))
  {
    ReplacedThenDropped(r, m);
    ReplaceTwice(r, m, AfterGrant(m));
    ReplaceTwice(r, m, m.(rq := IV));
  }

  ghost function Settling(r: Res): Outcome
    requires Live(r.convert)
  {
    Outcome(SettleAll(r).res, Cancelled, [], SettleAll(r).grants)
  }

  lemma DroppedLive(r: Res, id: LkId)
    requires Live(r.convert)
    ensures Live(DropAll(r, id).convert)
  {
  }

  // Granting by name is granting by position.

  lemma GrantConvertAgrees(r: Res, i: nat, l: Lock)
    requires IdsUnique(r) && i < |r.convert| && l.id == r.convert[i].id
    ensures ReplaceAll(r, l) == r.(convert := r.convert[i := l])
    ensures GrantAny(ReplaceAll(r, l), l) == GrantConvert(r, i, l)
  {
    assert r.convert[i] in r.convert;
    Elsewhere(r.grant, r.convert, l.id);
    Elsewhere(r.wait, r.convert, l.id);
    ReplacedThenDropped(r, l);
    ReplaceTwice(r, l, AfterGrant(l));
  }

  lemma GrantWaitAgrees(r: Res, i: nat, l: Lock)
    requires IdsUnique(r) && i < |r.wait| && l.id == r.wait[i].id
    ensures ReplaceAll(r, l) == r.(wait := r.wait[i := l])
    ensures GrantAny(ReplaceAll(r, l), l) == GrantWait(r, i, l)
  {
    assert r.wait[i] in r.wait;
    Elsewhere(r.grant, r.wait, l.id);
    Elsewhere(r.convert, r.wait, l.id);
    ReplacedThenDropped(r, l);
    ReplaceTwice(r, l, AfterGrant(l));
  }

  lemma GrantHereAgrees(r: Res, l: Lock)
    requires !Has(r.convert, l.id) && !Has(r.wait, l.id)
    ensures GrantAny(r, l) == GrantHere(r, l)
    ensures ReplaceAll(r, l) == r.(grant := Replace(r.grant, l))
  {
  }

  lemma Elsewhere(p: seq<Lock>, q: seq<Lock>, id: LkId)
    requires Apart(p, q) || Apart(q, p)
    requires exists x :: x in q && x.id == id
    ensures !Has(p, id)
  {
  }

  lemma {:induction false} InsertedThenReplaced(q: seq<Lock>, l: Lock, m: Lock, mode: Mode)
    requires !Has(q, l.id) && l.id == m.id
    ensures Replace(InsertOrdered(q, l, mode), m) == InsertOrdered(q, m, mode)
    ensures Has(InsertOrdered(q, l, mode), l.id)
  {
    if q != [] && q[0].rq >= mode {
      InsertedThenReplaced(q[1..], l, m, mode);
      var p := InsertOrdered(q[1..], l, mode);
      assert ([q[0]] + p)[1..] == p;
    }
  }

  lemma NameIsKnown(q: seq<Lkb>, v: seq<Lock>, st: Status, id: LkId)
    requires Reads(q, v, st)
    ensures Has(v, id) <==> exists i :: 0 <= i < |q| && q[i].id == id
  {
  }

  lemma Spliced(q: seq<Lkb>, v: seq<Lock>, st: Status, i: nat, lkb: Lkb)
    requires Reads(q, v, st) && lkb.status == OnQueue(st) && i <= |q|
    ensures Reads(ListInsert(q, i, lkb), v[..i] + [lkb.View()] + v[i..], st)
    ensures Elems(ListInsert(q, i, lkb)) == Elems(q) + {lkb}
  {
    assert q == q[..i] + q[i..];
  }

  lemma Enqueued(q: seq<Lkb>, v: seq<Lock>, st: Status, lkb: Lkb)
    requires Reads(q, v, st) && lkb.status == OnQueue(st)
    ensures Reads(ListAdd(q, lkb, lkb.exflags.headque), Enqueue(v, lkb.View()), st)
    ensures Elems(ListAdd(q, lkb, lkb.exflags.headque)) == Elems(q) + {lkb}
  {
    if lkb.exflags.headque {
      Spliced(q, v, st, 0, lkb);
      assert ListAdd(q, lkb, true) == ListInsert(q, 0, lkb);
    } else {
      Spliced(q, v, st, |q|, lkb);
      assert ListAdd(q, lkb, false) == ListInsert(q, |q|, lkb);
    }
  }

  function Elems(q: seq<Lkb>): set<Lkb> {
    set x | x in q
  }

  function Position(q: seq<Lkb>, x: Lkb): (i: nat)
    ensures i <= |q| && (i < |q| ==> q[i] == x) && (i == |q| <==> x !in q)
  {
    if q == [] then 0 else if q[0] == x then 0 else 1 + Position(q[1..], x)
  }

  lemma DelPosition(q: seq<Lkb>, v: seq<Lock>, st: Status, x: Lkb)
    requires Reads(q, v, st) && UniqueIds(v) && x in q
    ensures var p := ListDel(q, Position(q, x));
      Reads(p, Drop(v, x.id), st) && Elems(p) == Elems(q) - {x}
    ensures Has(v, x.id)
  {
    var i := Position(q, x);
    assert v[i].id == x.id;
    assert Index(v, x.id) == i;
    assert q == q[..i] + [x] + q[i + 1..];
  }

  lemma PlacedUnique(r: Res, l: Lock, st: Status)
    requires IdsUnique(r) && !Known(r, l.id)
    ensures IdsUnique(Placed(r, l, st))
  {
    DropMembers(r.grant, l.id);
    DropMembers(r.convert, l.id);
    DropMembers(r.wait, l.id);
    InsertOrderedMembers(r.grant, l, l.gr);
  }

  lemma DropUnique(r: Res, id: LkId)
    requires IdsUnique(r)
    ensures IdsUnique(DropAll(r, id)) && !Known(DropAll(r, id), id)
    ensures Has(r.grant, id) ==> !Has(r.convert, id) && !Has(r.wait, id)
    ensures Has(r.convert, id) ==> !Has(r.wait, id)
  {
    DropMembers(r.grant, id);
    DropMembers(r.convert, id);
    DropMembers(r.wait, id);
    var s := DropAll(r, id);
    DropMembers(s.grant, id);
    DropMembers(s.convert, id);
    DropMembers(s.wait, id);
  }

  lemma {:induction false} InsertAt(v: seq<Lock>, i: nat, l: Lock, mode: Mode)
    requires i <= |v| && (forall k :: 0 <= k < i ==> v[k].rq >= mode) && (i < |v| ==> v[i].rq < mode)
    ensures InsertOrdered(v, l, mode) == v[..i] + [l] + v[i..]
  {
    if i > 0 {
      InsertAt(v[1..], i - 1, l, mode);
    }
  }

  ghost predicate AgreeBut(q: seq<Lkb>, v: seq<Lock>, st: Status, lkb: Lkb)
    reads q
  {
    |v| == |q| && forall i :: 0 <= i < |q| ==>
      v[i].id == q[i].id && q[i].status == OnQueue(st) && (q[i] != lkb ==> v[i] == q[i].View())
  }

  lemma ListChanged(q: seq<Lkb>, v: seq<Lock>, st: Status, lkb: Lkb)
    requires UniqueIds(v) && OnlyOne(q, lkb)
    requires AgreeBut(q, v, st, lkb)
    ensures Reads(q, Replace(v, lkb.View()), st)
  {
  }

  lemma SameRecord(q: seq<Lkb>, v: seq<Lock>, st: Status, lkb: Lkb)
    requires Reads(q, v, st) && OnlyOne(q, lkb)
    ensures Replace(v, lkb.View()) == v
  {
  }

  lemma IdsKept(r: Res, l: Lock)
    requires IdsUnique(r)
    ensures IdsUnique(ReplaceAll(r, l))
  {
    SameIds(r.grant, l);
    SameIds(r.convert, l);
    SameIds(r.wait, l);
  }

  lemma SameIds(q: seq<Lock>, l: Lock)
    requires UniqueIds(q)
    ensures UniqueIds(Replace(q, l))
    ensures forall x :: x in Replace(q, l) ==> exists y :: y in q && y.id == x.id
  {
    var p := Replace(q, l);
    forall x | x in p ensures exists y :: y in q && y.id == x.id {
      var k :| 0 <= k < |p| && p[k] == x;
      assert q[k] in q;
    }
  }

  lemma ReplaceTwice(r: Res, l: Lock, m: Lock)
    requires l.id == m.id
    ensures ReplaceAll(ReplaceAll(r, l), m) == ReplaceAll(r, m)
  {
    ReplaceListTwice(r.grant, l, m);
    ReplaceListTwice(r.convert, l, m);
    ReplaceListTwice(r.wait, l, m);
  }

  lemma ReplaceListTwice(q: seq<Lock>, l: Lock, m: Lock)
    requires l.id == m.id
    ensures Replace(Replace(q, l), m) == Replace(q, m)
  {
    SameIndex(q, l);
  }

  lemma {:induction false} SameIndex(q: seq<Lock>, l: Lock)
    ensures Index(Replace(q, l), l.id) == Index(q, l.id)
  {
    if q != [] && q[0].id != l.id {
      SameIndex(q[1..], l);
      assert Replace(q, l) == [q[0]] + Replace(q[1..], l);
      assert Replace(q, l)[1..] == Replace(q[1..], l);
    }
  }

  /** The test does not look at the record of the lock it is about. */
  lemma OwnRecord(r: Res, l: Lock, now: bool)
    ensures Grantable(ReplaceAll(r, l), l, now) == Grantable(r, l, now)
  {
    OwnConflicts(r.grant, l);
    OwnConflicts(r.convert, l);
  }

  lemma OwnConflicts(q: seq<Lock>, l: Lock)
    ensures Conflicts(Replace(q, l), l) == Conflicts(q, l)
  {
    var p := Replace(q, l);
    if Conflicts(q, l) {
      var x :| x in q && x.id != l.id && !Compat(x.gr, l.rq);
      var k :| 0 <= k < |q| && q[k] == x;
      assert p[k] == x;
    }
    if Conflicts(p, l) {
      var x :| x in p && x.id != l.id && !Compat(x.gr, l.rq);
      var k :| 0 <= k < |p| && p[k] == x;
      assert q[k] == x;
    }
  }
}

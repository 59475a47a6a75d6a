/** Which journals still need recovery?  The part of a mounted node's lock module that answers this: the
    callbacks that report failed members, the results of journal recovery, and the function that carries
    both over to a value block all nodes share. */
module Recovery {

  datatype Result = NoResult | GaveUp | Success

  /** The shared value block: the generation up to which failures are in it, and the journals to recover. */
  datatype Lvb = Lvb(gen: nat, bits: seq<bool>)

  /** A node's own account. `submit[j]` is the generation before the one in which journal `j` lost its owner,
      or zero. */
  datatype Account = Account(block: nat, start: nat, blocked: bool, mounted: bool, submit: seq<nat>,
    result: seq<Result>)

  // ----- what the callbacks and the control function do to the account

  function Prepared(a: Account): Account {
    a.(block := a.start, blocked := a.blocked || a.mounted)
  }

  function Slot(a: Account, jid: nat): Account {
    if jid < |a.submit| then a.(submit := a.submit[jid := a.block]) else a
  }

  function Finished(a: Account, generation: nat): Account {
    a.(start := generation)
  }

  function Reported(a: Account, jid: nat, r: Result): Account {
    if jid < |a.result| then a.(result := a.result[jid := r]) else a
  }

  /** Locks are unblocked, unless a callback came in since `block` and `start` were read. */
  function Unblocked(a: Account, block: nat, start: nat): Account {
    if a.block == block && a.start == start then a.(blocked := false) else a
  }

  /** The end of a mount. */
  function Mounted(a: Account): Account {
    a.(blocked := false, mounted := true, submit := seq(|a.submit|, _ => 0), result := seq(|a.result|, _ => NoResult))
  }

  /** Results count only while the value block is not ahead of the node. */
  predicate Cleared(a: Account, gen: nat, i: nat)
    requires i < |a.result|
  {
    gen <= a.start && a.result[i] == Success
  }

  /** A failure the value block has, or is about to get. */
  predicate Passed(a: Account, gen: nat, i: nat)
    requires i < |a.submit|
  {
    gen <= a.start && 0 < a.submit[i] < a.start
  }

  predicate SameSize(a: Account, bits: seq<bool>) {
    |a.submit| == |bits| && |a.result| == |bits|
  }

  function BitsAfter(a: Account, v: Lvb): (bits: seq<bool>)
    requires SameSize(a, v.bits)
    ensures |bits| == |v.bits|
    ensures forall i :: 0 <= i < |bits| ==>
      (bits[i] <==> (Passed(a, v.gen, i) && v.gen < a.start) || (v.bits[i] && !Cleared(a, v.gen, i)))
  {
    seq(|v.bits|, i requires 0 <= i < |v.bits| =>
      (Passed(a, v.gen, i) && v.gen < a.start) || (v.bits[i] && !Cleared(a, v.gen, i)))
  }

  function AccountAfter(a: Account, v: Lvb): (b: Account)
    requires SameSize(a, v.bits)
    ensures b == a.(submit := b.submit, result := b.result) && SameSize(b, v.bits)
    ensures forall i :: 0 <= i < |v.bits| ==> b.submit[i] == (if Passed(a, v.gen, i) then 0 else a.submit[i])
    ensures forall i :: 0 <= i < |v.bits| ==> b.result[i] == (if Cleared(a, v.gen, i) then NoResult else a.result[i])
  {
    a.(submit := seq(|v.bits|, i requires 0 <= i < |v.bits| => if Passed(a, v.gen, i) then 0 else a.submit[i]),
       result := seq(|v.bits|, i requires 0 <= i < |v.bits| => if Cleared(a, v.gen, i) then NoResult else a.result[i]))
  }

  /** The value block is written when the generation moves on, or when a bit was cleared. */
  predicate Writes(a: Account, v: Lvb)
    requires SameSize(a, v.bits)
  {
    v.gen < a.start || exists i :: 0 <= i < |v.bits| && v.bits[i] && Cleared(a, v.gen, i)
  }

  function LvbAfter(a: Account, v: Lvb): Lvb
    requires SameSize(a, v.bits)
  {
    Lvb(if Writes(a, v) then a.start else v.gen, BitsAfter(a, v))
  }

  // ----- the module itself

  class Lockstruct {
    var recoverBlock: nat
    var recoverStart: nat
    var blockLocks: bool
    var mountDone: bool
    const submit: array<nat>
    const result: array<Result>
    const lvbBits: array<bool>

    constructor (size: nat)
      ensures Valid() && submit.Length == size
      ensures fresh(submit) && fresh(result) && fresh(lvbBits)
    {
      recoverBlock, recoverStart := 0, 0;
      blockLocks, mountDone := true, false;
      submit := new nat[size](_ => 0);
      result := new Result[size](_ => NoResult);
      lvbBits := new bool[size](_ => false);
    }

    ghost predicate Valid() {
      result.Length == submit.Length && lvbBits.Length == submit.Length
    }

    function View(): Account
      reads this, submit, result
    {
      Account(recoverBlock, recoverStart, blockLocks, mountDone, submit[..], result[..])
    }

    method RecoverPrep()
      requires Valid()
      modifies `recoverBlock, `blockLocks
      ensures View() == Prepared(old(View()))
    {
      recoverBlock := recoverStart;
      if mountDone {
        blockLocks := true;
      }
    }

    method RecoverSlot(slot: nat)
      requires Valid() && slot > 0
      modifies submit
      ensures View() == Slot(old(View()), slot - 1)
    {
      var jid := slot - 1;
      if submit.Length < jid + 1 {
        return;
      }
      submit[jid] := recoverBlock;
    }

    method RecoverDone(generation: nat)
      requires Valid()
      modifies `recoverStart
      ensures View() == Finished(old(View()), generation)
    {
      recoverStart := generation;
    }

    method RecoveryResult(jid: nat, r: Result)
      requires Valid()
      modifies result
      ensures View() == Reported(old(View()), jid, r)
    {
      if result.Length < jid + 1 {
        return;
      }
      result[jid] := r;
    }

    /** Copy the bits of the value block. */
    method LvbRead(v: Lvb)
      requires Valid() && |v.bits| == lvbBits.Length
      modifies lvbBits
      ensures lvbBits[..] == v.bits
    {
      for i := 0 to lvbBits.Length
        invariant lvbBits[..i] == v.bits[..i]
      {
        lvbBits[i] := v.bits[i];
      }
    }

    /** Clear the bits of the journals recovered here; says whether one was set. */
    method ClearRecovered(ghost a: Account, ghost v: Lvb) returns (cleared: bool)
      requires Valid() && a == View() && v.bits == lvbBits[..] && v.gen <= a.start
      modifies lvbBits, result
      ensures submit[..] == a.submit && result[..] == AccountAfter(a, v).result
      ensures forall i :: 0 <= i < lvbBits.Length ==> (lvbBits[i] <==> v.bits[i] && !Cleared(a, v.gen, i))
      ensures cleared <==> exists i :: 0 <= i < |v.bits| && v.bits[i] && Cleared(a, v.gen, i)
    {
      cleared := false;
      for i := 0 to result.Length
        invariant forall k :: 0 <= k < i ==> result[k] == (if Cleared(a, v.gen, k) then NoResult else a.result[k])
        invariant forall k :: i <= k < result.Length ==> result[k] == a.result[k]
        invariant forall k :: 0 <= k < i ==> (lvbBits[k] <==> v.bits[k] && !Cleared(a, v.gen, k))
        invariant forall k :: i <= k < result.Length ==> lvbBits[k] == v.bits[k]
        invariant cleared <==> exists k :: 0 <= k < i && v.bits[k] && Cleared(a, v.gen, k)
      {
        if result[i] == Success {
          result[i] := NoResult;
          if lvbBits[i] {
            lvbBits[i] := false;
            cleared := true;
          }
        }
      }
    }

    /** The failures before this generation are in the value block by now. */
    method ForgetSubmitted(ghost a: Account, ghost gen: nat)
      requires Valid() && a.submit == submit[..] && a.start == recoverStart && gen == recoverStart
      modifies submit
      ensures forall i :: 0 <= i < submit.Length ==> submit[i] == if Passed(a, gen, i) then 0 else a.submit[i]
    {
      for i := 0 to submit.Length
        invariant forall k :: 0 <= k < i ==> submit[k] == if Passed(a, gen, k) then 0 else a.submit[k]
        invariant forall k :: i <= k < submit.Length ==> submit[k] == a.submit[k]
      {
        if submit[i] != 0 && submit[i] < recoverStart {
          submit[i] := 0;
        }
      }
    }

    /** The failures before this generation are not in the value block yet. */
    method PublishSubmitted(ghost a: Account, ghost bits: seq<bool>, ghost gen: nat)
      requires Valid() && a.submit == submit[..] && a.start == recoverStart && bits == lvbBits[..] && gen < recoverStart
      modifies submit, lvbBits
      ensures forall i :: 0 <= i < submit.Length ==> submit[i] == if Passed(a, gen, i) then 0 else a.submit[i]
      ensures forall i :: 0 <= i < submit.Length ==> (lvbBits[i] <==> bits[i] || Passed(a, gen, i))
    {
      for i := 0 to submit.Length
        invariant forall k :: 0 <= k < i ==> submit[k] == if Passed(a, gen, k) then 0 else a.submit[k]
        invariant forall k :: i <= k < submit.Length ==> submit[k] == a.submit[k]
        invariant forall k :: 0 <= k < i ==> (lvbBits[k] <==> bits[k] || Passed(a, gen, k))
        invariant forall k :: i <= k < submit.Length ==> lvbBits[k] == bits[k]
      {
        if submit[i] != 0 && submit[i] < recoverStart {
          submit[i] := 0;
          lvbBits[i] := true;
        }
      }
    }

    /** What the control function does while it holds the control lock: both accounts are brought up to date. */
    method ControlUpdate(v: Lvb) returns (w: Lvb)
      requires Valid() && |v.bits| == lvbBits.Length
      modifies submit, result, lvbBits
      ensures View() == AccountAfter(old(View()), v) && w == LvbAfter(old(View()), v) && lvbBits[..] == w.bits
    {
      ghost var a := View();
      LvbRead(v);
      var write := false;
      if v.gen <= recoverStart {
        write := ClearRecovered(a, v);
      }
      ghost var bits := lvbBits[..];
      if v.gen == recoverStart {
        ForgetSubmitted(a, v.gen);
      } else if v.gen < recoverStart {
        PublishSubmitted(a, bits, v.gen);
        write := true;
      }
      w := Lvb(if write then recoverStart else v.gen, lvbBits[..]);
    }

    /** The journals to recover now. */
    method ScanBits() returns (todo: seq<nat>)
      requires Valid()
      ensures forall i: nat :: i in todo <==> i < lvbBits.Length && lvbBits[i]
    {
      todo := [];
      for i := 0 to lvbBits.Length
        invariant forall k: nat :: k in todo <==> k < i && lvbBits[k]
      {
        if lvbBits[i] {
          todo := todo + [i];
        }
      }
    }

    method TryUnblock(blockGen: nat, startGen: nat)
      requires Valid()
      modifies `blockLocks
      ensures View() == Unblocked(old(View()), blockGen, startGen)
    {
      if recoverBlock == blockGen && recoverStart == startGen {
        blockLocks := false;
      }
    }

    method MountDone()
      requires Valid()
      modifies `blockLocks, `mountDone, submit, result
      ensures View() == Mounted(old(View()))
    {
      for i := 0 to submit.Length
        invariant forall k :: 0 <= k < i ==> submit[k] == 0 && result[k] == NoResult
        invariant recoverBlock == old(recoverBlock) && recoverStart == old(recoverStart)
      {
        submit[i] := 0;
        result[i] := NoResult;
      }
      blockLocks := false;
      mountDone := true;
      assert submit[..] == Mounted(old(View())).submit;
      assert result[..] == Mounted(old(View())).result;
    }
  }
}

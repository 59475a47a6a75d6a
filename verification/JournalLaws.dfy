/** What each step does to the two accounts, over every run: which bits come and go, when locks are blocked and when
    they are not any more. */
module JournalLaws {
  import opened Recovery
  import opened JournalSafety

  ghost predicate At(cs: seq<Cluster>, es: seq<Event>, k: nat, n: nat) {
    IsRun(cs, es) && k < |es| && n in cs[k].nodes
  }

  lemma Facts(cs: seq<Cluster>, es: seq<Event>, k: nat)
    requires IsRun(cs, es) && k < |es|
    ensures Inv(cs[k]) && Inv(cs[k + 1]) && Possible(cs[k], es[k]) && cs[k + 1] == Next(cs[k], es[k])
  {
    RunInv(cs, es, k);
    RunInv(cs, es, k + 1);
  }

  /** The step alone, that the account has its size, and that the two generations agree while a recovery goes on. */
  lemma StepFacts(cs: seq<Cluster>, es: seq<Event>, k: nat, n: nat)
    requires At(cs, es, k, n)
    ensures Possible(cs[k], es[k]) && cs[k + 1] == Next(cs[k], es[k])
    ensures SameSize(cs[k].nodes[n].acc, cs[k].lvb.bits) && |cs[k].lvb.bits| == cs[k].size
    ensures cs[k].nodes[n].begun ==> cs[k].nodes[n].acc.block == cs[k].nodes[n].acc.start
  {
    Facts(cs, es, k);
    assert NodeOk(cs[k], cs[k].nodes[n]);
  }

  /** Journal `j` was recovered here, and the value block is not ahead of this node. */
  predicate DoneHere(x: Node, v: Lvb, j: nat) {
    j < |x.acc.result| && x.acc.result[j] == Success && v.gen <= x.acc.start
  }

  /** Journal `j` lost its owner in a generation that the value block does not have and this node does. */
  predicate NewHere(x: Node, v: Lvb, j: nat) {
    j < |x.acc.submit| && 0 < x.acc.submit[j] < x.acc.start && v.gen < x.acc.start
  }

  /** The node has not been called back since it read its account. */
  predicate Undisturbed(x: Node) {
    !x.control.Off? && x.acc.block == x.control.block && x.acc.start == x.control.start
  }

  /** An update really clears the bits of the journals that were recovered here, really sets those that failed, and
      leaves the others alone; the generation is the later one; and both are taken off the node's own account. */
  lemma BitsComeAndGo(cs: seq<Cluster>, es: seq<Event>, k: nat, n: nat)
    requires At(cs, es, k, n) && es[k] == Update(n) && Undisturbed(cs[k].nodes[n])
    ensures
      var x, v, y, w := cs[k].nodes[n], cs[k].lvb, cs[k + 1].nodes[n], cs[k + 1].lvb;
      && w.gen == (if v.gen < x.acc.start then x.acc.start else v.gen)
      && BitsAreRight(x, v, w) && AccountIsRight(x, v, y.acc)
  {
    Facts(cs, es, k);
    var x := cs[k].nodes[n];
    assert NodeOk(cs[k], x);
    AccountsAfter(x, cs[k].lvb);
    UpdateWritesBoth(cs[k], n);
  }

  ghost predicate BitsAreRight(x: Node, v: Lvb, w: Lvb) {
    |w.bits| == |v.bits|
    && forall j: nat :: j < |v.bits| ==> (w.bits[j] <==> NewHere(x, v, j) || (v.bits[j] && !DoneHere(x, v, j)))
  }

  ghost predicate AccountIsRight(x: Node, v: Lvb, a: Account) {
    && |a.submit| == |a.result| == |v.bits| == |x.acc.submit| == |x.acc.result|
    && forall j: nat :: j < |v.bits| ==>
         && a.result[j] == (if DoneHere(x, v, j) then NoResult else x.acc.result[j])
         && (if NewHere(x, v, j) then a.submit[j] == 0
             else a.submit[j] == x.acc.submit[j] || (a.submit[j] == 0 && v.gen <= x.acc.start))
  }

  lemma AccountsAfter(x: Node, v: Lvb)
    requires SameSize(x.acc, v.bits)
    ensures BitsAreRight(x, v, LvbAfter(x.acc, v)) && AccountIsRight(x, v, AccountAfter(x.acc, v))
    ensures LvbAfter(x.acc, v).gen == if v.gen < x.acc.start then x.acc.start else v.gen
  {
  }

  lemma UpdateWritesBoth(c: Cluster, n: nat)
    requires Inv(c) && Possible(c, Update(n)) && Undisturbed(c.nodes[n])
    ensures SameSize(c.nodes[n].acc, c.lvb.bits)
    ensures var d := Next(c, Update(n));
      n in d.nodes && d.lvb == LvbAfter(c.nodes[n].acc, c.lvb) && d.nodes[n].acc == AccountAfter(c.nodes[n].acc, c.lvb)
  {
    assert NodeOk(c, c.nodes[n]);
  }

  /** Bits go only when somebody has recovered the journal. */
  lemma BitsGoByRecovery(cs: seq<Cluster>, es: seq<Event>, k: nat, j: nat)
    requires IsRun(cs, es) && k < |es| && j < |cs[k].lvb.bits| && cs[k].lvb.bits[j]
    ensures |cs[k + 1].lvb.bits| == |cs[k].lvb.bits|
    ensures !cs[k + 1].lvb.bits[j] ==> j in cs[k].recovered && es[k].Update?
  {
    Facts(cs, es, k);
    if es[k].Update? {
      assert NodeOk(cs[k], cs[k].nodes[es[k].node]);
    }
  }

  /** After the update the node goes on with the journals whose bits are set, or, if there are none, to unblock; if it
      has been called back it does nothing. */
  lemma UpdateGoesOn(cs: seq<Cluster>, es: seq<Event>, k: nat, n: nat)
    requires At(cs, es, k, n) && es[k] == Update(n)
    ensures
      var x, y, w := cs[k].nodes[n], cs[k + 1].nodes[n], cs[k + 1].lvb;
      if Undisturbed(x) then
        && (forall j: nat :: j in y.trying <==> j in x.trying || (j < |w.bits| && w.bits[j]))
        && if (exists j: nat :: j < |w.bits| && w.bits[j]) then y.control == Off
           else y.control == Scanned(x.control.block, x.control.start)
      else y == x.(control := Off) && w == cs[k].lvb
  {
    StepFacts(cs, es, k, n);
    var x := cs[k].nodes[n];
    if Undisturbed(x) {
      var w := LvbAfter(x.acc, cs[k].lvb);
      var todo := set i: nat | i < |w.bits| && w.bits[i];
      assert forall j: nat :: j in todo <==> j < |w.bits| && w.bits[j];
    }
  }

  /** Locks are blocked when a recovery begins, and the generation before it is remembered. */
  lemma RecoveryBlocks(cs: seq<Cluster>, es: seq<Event>, k: nat, n: nat)
    requires At(cs, es, k, n) && es[k] == Prep(n)
    ensures var x, y := cs[k].nodes[n], cs[k + 1].nodes[n];
      && y.begun && y.acc.block == y.acc.start == x.acc.start && (x.acc.mounted ==> y.acc.blocked)
      && y.acc.submit == x.acc.submit && y.acc.result == x.acc.result
  {
    Facts(cs, es, k);
  }

  /** What is reported goes on the account: a failed member under the generation before, a result as it is. */
  lemma ReportsAreNoted(cs: seq<Cluster>, es: seq<Event>, k: nat, n: nat, j: nat)
    requires At(cs, es, k, n) && j < cs[k].size
    ensures es[k] == Tell(n, j) ==>
      cs[k + 1].nodes[n].acc == cs[k].nodes[n].acc.(submit := cs[k + 1].nodes[n].acc.submit)
      && |cs[k + 1].nodes[n].acc.submit| == cs[k].size
      && cs[k + 1].nodes[n].acc.submit[j] == cs[k].nodes[n].acc.start
      && forall i: nat :: i < cs[k].size && i != j ==>
           cs[k + 1].nodes[n].acc.submit[i] == cs[k].nodes[n].acc.submit[i]
    ensures es[k].Result? && es[k].node == n && es[k].jid == j ==>
      && |cs[k + 1].nodes[n].acc.result| == cs[k].size && cs[k + 1].nodes[n].acc.result[j] == es[k].r
      && (es[k].r == Success ==> j in cs[k + 1].recovered)
      && forall i: nat :: i < cs[k].size && i != j ==>
           cs[k + 1].nodes[n].acc.result[i] == cs[k].nodes[n].acc.result[i]
  {
    StepFacts(cs, es, k, n);
  }

  /** A cycle that is over brings the node to its generation. */
  lemma CycleEnds(cs: seq<Cluster>, es: seq<Event>, k: nat, n: nat)
    requires At(cs, es, k, n) && es[k] == Finish(n)
    ensures var x, y := cs[k].nodes[n], cs[k + 1].nodes[n];
      && y.cycle == x.cycle + 1 < |cs[k].gens| && y.acc.start == cs[k].gens[y.cycle] && !y.begun
      && y.acc == x.acc.(start := y.acc.start)
  {
    Facts(cs, es, k);
  }

  /** The locks are unblocked at the end, exactly if the node has not been called back in between. */
  lemma LocksAreUnblocked(cs: seq<Cluster>, es: seq<Event>, k: nat, n: nat)
    requires At(cs, es, k, n) && es[k] == Unblock(n)
    ensures var x, y := cs[k].nodes[n], cs[k + 1].nodes[n];
      y.acc.blocked == (x.acc.blocked && !Undisturbed(x)) && y.control == Off && y.acc.start == x.acc.start
  {
    Facts(cs, es, k);
  }

  /** The control function starts when no recovery is under way, with the generations it finds; and a mounting node
      remembers the generation of the value block exactly if that has no bits. */
  lemma ReadsAreRight(cs: seq<Cluster>, es: seq<Event>, k: nat, n: nat)
    requires At(cs, es, k, n)
    ensures es[k] == Start(n) ==>
      var x, y := cs[k].nodes[n], cs[k + 1].nodes[n];
      y == x.(control := if x.begun then Off else Started(x.acc.block, x.acc.start))
    ensures es[k] == MountRead(n) ==>
      var x, y, v := cs[k].nodes[n], cs[k + 1].nodes[n], cs[k].lvb;
      y == x.(seen := if (forall i :: 0 <= i < |v.bits| ==> !v.bits[i]) then AllClear(v.gen) else Nothing)
  {
    Facts(cs, es, k);
    assert NodeOk(cs[k], cs[k].nodes[n]);
  }

  /** A mounting node is let in exactly if it saw a value block without bits of the generation it has reached, and no
      recovery has begun; its account then starts afresh. */
  lemma MountsAreLetIn(cs: seq<Cluster>, es: seq<Event>, k: nat, n: nat)
    requires At(cs, es, k, n) && es[k] == MountCheck(n)
    ensures
      var x, y := cs[k].nodes[n], cs[k + 1].nodes[n];
      && (y.acc.mounted <==> x.seen == AllClear(x.acc.start) && !x.begun)
      && |y.acc.submit| == |y.acc.result| == cs[k].size
      && (y.acc.mounted ==> !y.acc.blocked && forall j: nat :: j < cs[k].size ==>
            y.acc.submit[j] == 0 && y.acc.result[j] == NoResult)
      && (!y.acc.mounted ==> y.acc == x.acc)
  {
    Facts(cs, es, k);
    assert NodeOk(cs[k], cs[k].nodes[n]);
    assert NodeOk(cs[k + 1], cs[k + 1].nodes[n]);
  }
}

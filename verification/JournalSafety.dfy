/** Any number of nodes share the value block.  Members fail, in cycles that every survivor is told about; a
    node unblocks its locks only when every journal that lost its owner has been recovered by somebody. */
module JournalSafety {
  import opened Recovery

  /** Where a node is in its control function: not running, started with the two generations it read, or past
      the value block with no journal left to recover. */
  datatype Control = Off | Started(block: nat, start: nat) | Scanned(block: nat, start: nat)

  /** `cycle` counts the recovery cycles this node has been told are over; `told` are the journals of the next
      one it has been told about, once that has begun for it.  `trying` are the journals it was asked to
      recover; `seen` is what a mounting node read in the value block. */
  datatype Node = Node(acc: Account, cycle: nat, begun: bool, told: set<nat>, control: Control, trying: set<nat>,
    seen: Seen)

  /** A mounting node remembers the generation of a value block without bits. */
  datatype Seen = Nothing | AllClear(gen: nat)

  /** Cycle `c` of the lockspace ended in generation `gens[c]`, and `fails[c]` lost their owners before it. */
  datatype Cluster = Cluster(size: nat, gens: seq<nat>, fails: seq<set<nat>>, lvb: Lvb, recovered: set<nat>,
    nodes: map<nat, Node>)

  datatype Event = Fail(jids: set<nat>, gen: nat, dead: set<nat>)
                 | Join(node: nat)
                 | Prep(node: nat)
                 | Tell(node: nat, jid: nat)
                 | Finish(node: nat)
                 | Start(node: nat)
                 | Update(node: nat)
                 | Unblock(node: nat)
                 | Result(node: nat, jid: nat, r: Recovery.Result)
                 | MountRead(node: nat)
                 | MountCheck(node: nat)

  function Fresh(size: nat): Account {
    Account(0, 0, true, false, seq(size, _ => 0), seq(size, _ => NoResult))
  }

  predicate NoBits(v: Lvb) {
    forall i :: 0 <= i < |v.bits| ==> !v.bits[i]
  }

  /** The cluster after its first mount: generation `gen`, nothing to recover, one node at work. */
  function First(size: nat, gen: nat, node: nat): Cluster {
    Cluster(size, [gen], [{}], Lvb(gen, seq(size, _ => false)), {},
            map[node := Node(Fresh(size).(start := gen, blocked := false, mounted := true), 0, false, {}, Off, {},
              Nothing)])
  }

  predicate Has(c: Cluster, n: nat) {
    n in c.nodes
  }

  function Failed(c: Cluster, k: nat): set<nat> {
    if k < |c.fails| then c.fails[k] else {}
  }

  /** Each journal loses its owner at most once, in a generation later than all before it. */
  ghost predicate NewFailure(c: Cluster, jids: set<nat>, gen: nat) {
    && c.gens != [] && gen > c.gens[|c.gens| - 1]
    && (forall j :: j in jids ==> j < c.size)
    && (forall k, j :: 0 <= k < |c.fails| && j in jids ==> j !in c.fails[k])
  }

  ghost predicate Possible(c: Cluster, e: Event) {
    match e
    case Fail(jids, gen, dead) => NewFailure(c, jids, gen)
    case Join(n) => !Has(c, n) && c.gens != []
    case Prep(n) => Has(c, n) && c.nodes[n].cycle + 1 < |c.gens|
    case Tell(n, j) => Has(c, n) && c.nodes[n].begun && j in Failed(c, c.nodes[n].cycle + 1)
    case Finish(n) =>
      Has(c, n) && c.nodes[n].begun && c.nodes[n].cycle + 1 < |c.gens|
        && c.nodes[n].told == Failed(c, c.nodes[n].cycle + 1)
    case Start(n) => Has(c, n) && c.nodes[n].acc.mounted
    case Update(n) => Has(c, n) && c.nodes[n].control.Started?
    case Unblock(n) => Has(c, n) && c.nodes[n].control.Scanned?
    case Result(n, j, r) => Has(c, n) && j in c.nodes[n].trying && r != NoResult
    case MountRead(n) => Has(c, n) && !c.nodes[n].acc.mounted
    case MountCheck(n) => Has(c, n) && !c.nodes[n].acc.mounted
  }

  function With(c: Cluster, n: nat, x: Node): Cluster {
    c.(nodes := c.nodes[n := x])
  }

  /** The part of the control function under the control lock; it stops early when a callback has come in. */
  function Updated(c: Cluster, n: nat): Cluster
    requires Has(c, n) && c.nodes[n].control.Started?
  {
    var x := c.nodes[n];
    if x.acc.block != x.control.block || x.acc.start != x.control.start || !SameSize(x.acc, c.lvb.bits) then
      With(c, n, x.(control := Off))
    else
      var w := LvbAfter(x.acc, c.lvb);
      var acc := AccountAfter(x.acc, c.lvb);
      var todo := set i: nat | i < |w.bits| && w.bits[i];
      With(c.(lvb := w), n,
        if todo != {} then x.(acc := acc, control := Off, trying := x.trying + todo)
        else x.(acc := acc, control := Scanned(x.control.block, x.control.start)))
  }

  /** The mounting node's last look at its own account. */
  function MountChecked(x: Node): Node {
    if x.seen.AllClear? && x.seen.gen == x.acc.start && x.acc.block != x.acc.start then
      x.(acc := Mounted(x.acc))
    else
      x.(seen := Nothing)
  }

  ghost function Next(c: Cluster, e: Event): Cluster
    requires Possible(c, e)
  {
    match e
    case Fail(jids, gen, dead) => c.(gens := c.gens + [gen], fails := c.fails + [jids], nodes := c.nodes - dead)
    case Join(n) =>
      var k := |c.gens| - 1;
      With(c, n, Node(Fresh(c.size).(start := c.gens[k]), k, false, {}, Off, {}, Nothing))
    case Prep(n) => With(c, n, c.nodes[n].(acc := Prepared(c.nodes[n].acc), begun := true))
    case Tell(n, j) => With(c, n, c.nodes[n].(acc := Slot(c.nodes[n].acc, j), told := c.nodes[n].told + {j}))
    case Finish(n) =>
      var k := c.nodes[n].cycle + 1;
      With(c, n, c.nodes[n].(acc := Finished(c.nodes[n].acc, c.gens[k]), cycle := k, begun := false, told := {}))
    case Start(n) =>
      var a := c.nodes[n].acc;
      With(c, n, c.nodes[n].(control := if a.block == a.start then Off else Started(a.block, a.start)))
    case Update(n) => Updated(c, n)
    case Unblock(n) =>
      var x := c.nodes[n];
      With(c, n, x.(acc := Unblocked(x.acc, x.control.block, x.control.start), control := Off))
    case Result(n, j, r) =>
      var x := c.nodes[n];
      With(c.(recovered := if r == Success then c.recovered + {j} else c.recovered), n,
           x.(acc := Reported(x.acc, j, r), trying := x.trying - {j}))
    case MountRead(n) => With(c, n, c.nodes[n].(seen := if NoBits(c.lvb) then AllClear(c.lvb.gen) else Nothing))
    case MountCheck(n) => With(c, n, MountChecked(c.nodes[n]))
  }

  ghost predicate IsRun(cs: seq<Cluster>, es: seq<Event>) {
    && |cs| == |es| + 1
    && (exists size: nat, gen: nat, node: nat :: gen > 0 && cs[0] == First(size, gen, node))
    && forall i :: 0 <= i < |es| ==> Possible(cs[i], es[i]) && cs[i + 1] == Next(cs[i], es[i])
  }

  // ----- the invariant

  /** Every failure up to generation `g` has been recovered. */
  ghost predicate RecoveredUpTo(c: Cluster, g: nat) {
    forall i :: 0 <= i < |c.fails| && i < |c.gens| && c.gens[i] <= g ==> c.fails[i] <= c.recovered
  }

  ghost predicate HistoryOk(c: Cluster) {
    && |c.gens| == |c.fails| > 0 && c.gens[0] > 0
    && (forall i, j :: 0 <= i < j < |c.gens| ==> c.gens[i] < c.gens[j])
    && (forall i, j :: 0 <= i < |c.fails| && j in c.fails[i] ==> j < c.size)
    && (forall i, k, j :: 0 <= i < k < |c.fails| && j in c.fails[i] ==> j !in c.fails[k])
  }

  /** The value block knows every failure up to its generation, and marks only journals that failed. */
  ghost predicate LvbOk(c: Cluster) {
    && |c.lvb.bits| == c.size && |c.gens| > 0 && c.lvb.gen <= c.gens[|c.gens| - 1]
    && (forall i, j: nat :: 0 <= i < |c.fails| && i < |c.gens| && c.gens[i] <= c.lvb.gen && j in c.fails[i] ==>
          j in c.recovered || (j < c.size && c.lvb.bits[j]))
    && (forall j: nat :: j < |c.lvb.bits| && c.lvb.bits[j] ==> HasFailed(c, j))
  }

  ghost predicate HasFailed(c: Cluster, j: nat) {
    exists i :: 0 <= i < |c.fails| && j in c.fails[i]
  }

  ghost predicate AccountOk(c: Cluster, x: Node) {
    && SameSize(x.acc, c.lvb.bits)
    && x.cycle < |c.gens| && x.acc.start == c.gens[x.cycle]
    && (x.begun <==> x.acc.block == x.acc.start) && (!x.begun ==> x.told == {})
    && (forall j: nat :: j < |x.acc.result| && x.acc.result[j] == Success ==> j in c.recovered)
    && (forall j :: j in x.trying ==> HasFailed(c, j))
  }

  /** A failure this node was told about is in the value block, or is still to be put there by this node. */
  ghost predicate KeepsTrack(c: Cluster, x: Node)
    requires AccountOk(c, x) && HistoryOk(c)
  {
    && (forall i, j :: 0 <= i <= x.cycle && j in c.fails[i] ==>
          c.gens[i] <= c.lvb.gen || (j < |x.acc.submit| && 0 < x.acc.submit[j] < c.gens[i]))
    && (x.begun ==> forall j :: j in x.told ==> j < |x.acc.submit| && x.acc.submit[j] == x.acc.start)
    && (forall j: nat :: j < |x.acc.submit| && x.acc.submit[j] != 0 ==> HasFailed(c, j))
  }

  ghost predicate ControlOk(c: Cluster, x: Node) {
    && (x.control.Scanned? ==>
          x.control.block != x.control.start && x.control.start <= c.lvb.gen && RecoveredUpTo(c, x.control.start))
    && (x.control.Started? ==> x.control.block != x.control.start)
    && (x.control != Off ==> x.acc.mounted)
    && (x.seen.AllClear? ==> RecoveredUpTo(c, x.seen.gen) && x.seen.gen <= c.lvb.gen)
  }

  ghost predicate NodeOk(c: Cluster, x: Node)
    requires HistoryOk(c)
  {
    && AccountOk(c, x) && ControlOk(c, x)
    && (x.acc.mounted ==> KeepsTrack(c, x))
    && (!x.acc.blocked ==> x.acc.mounted && !x.begun && RecoveredUpTo(c, x.acc.start))
  }

  ghost predicate Inv(c: Cluster) {
    && HistoryOk(c) && LvbOk(c)
    && (forall j :: j in c.recovered ==> HasFailed(c, j))
    && (forall n :: n in c.nodes ==> NodeOk(c, c.nodes[n]))
  }

  // ----- each event keeps it

  /** What the others may rely on: history, value block and recoveries only grow. */
  ghost predicate Grows(c: Cluster, d: Cluster) {
    && |c.gens| > 0 && d.size == c.size && |d.lvb.bits| == |c.lvb.bits| && c.lvb.gen <= d.lvb.gen
    && c.recovered <= d.recovered
    && c.gens <= d.gens && c.fails <= d.fails
    && (forall i :: |c.gens| <= i < |d.gens| ==> d.gens[i] > c.gens[|c.gens| - 1])
  }

  lemma HasFailedStays(c: Cluster, d: Cluster)
    requires c.fails <= d.fails
    ensures forall j :: HasFailed(c, j) ==> HasFailed(d, j)
  {
    forall j | HasFailed(c, j) ensures HasFailed(d, j) {
      var i :| 0 <= i < |c.fails| && j in c.fails[i];
      assert d.fails[i] == c.fails[i];
    }
  }

  lemma RecoveredStays(c: Cluster, d: Cluster, g: nat)
    requires HistoryOk(c) && HistoryOk(d) && Grows(c, d) && RecoveredUpTo(c, g) && g <= c.gens[|c.gens| - 1]
    ensures RecoveredUpTo(d, g)
  {
  }

  /** A node that does nothing stays all right. */
  lemma OtherNode(c: Cluster, d: Cluster, x: Node)
    requires HistoryOk(c) && HistoryOk(d) && LvbOk(c) && Grows(c, d) && NodeOk(c, x)
    ensures NodeOk(d, x)
  {
    HasFailedStays(c, d);
    AccountBound(c, x);
    RecoveredGrows(c, d);
    assert forall i :: 0 <= i <= x.cycle ==> d.fails[i] == c.fails[i] && d.gens[i] == c.gens[i];
  }

  lemma AccountBound(c: Cluster, x: Node)
    requires HistoryOk(c) && AccountOk(c, x)
    ensures x.acc.start <= c.gens[|c.gens| - 1]
  {
    if x.cycle < |c.gens| - 1 {
      assert c.gens[x.cycle] < c.gens[|c.gens| - 1];
    }
  }

  lemma RecoveredGrows(c: Cluster, d: Cluster)
    requires HistoryOk(c) && HistoryOk(d) && Grows(c, d)
    ensures forall g: nat :: g <= c.gens[|c.gens| - 1] && RecoveredUpTo(c, g) ==> RecoveredUpTo(d, g)
  {
    forall g: nat | g <= c.gens[|c.gens| - 1] && RecoveredUpTo(c, g) ensures RecoveredUpTo(d, g) {
      RecoveredStays(c, d, g);
    }
  }

  /** Only node `n` changes; history, value block and recoveries do not. */
  lemma OneNode(c: Cluster, n: nat, x: Node)
    requires Inv(c) && NodeOk(c, x)
    ensures Inv(With(c, n, x))
  {
    var d := With(c, n, x);
    assert HistoryOk(d) && Grows(c, d);
    HasFailedStays(c, d);
    assert LvbOk(d);
    forall m | m in d.nodes ensures NodeOk(d, d.nodes[m]) {
      OtherNode(c, d, d.nodes[m]);
    }
  }

  lemma FailKeeps(c: Cluster, jids: set<nat>, gen: nat, dead: set<nat>)
    requires Inv(c) && Possible(c, Fail(jids, gen, dead))
    ensures Inv(Next(c, Fail(jids, gen, dead)))
  {
    var d := Next(c, Fail(jids, gen, dead));
    assert HistoryOk(d) && Grows(c, d);
    HasFailedStays(c, d);
    assert LvbOk(d);
    forall m | m in d.nodes ensures NodeOk(d, d.nodes[m]) {
      OtherNode(c, d, d.nodes[m]);
    }
  }

  lemma PrepKeeps(c: Cluster, n: nat)
    requires Inv(c) && Possible(c, Prep(n))
    ensures Inv(Next(c, Prep(n)))
  {
    var x := c.nodes[n];
    assert NodeOk(c, x);
    OneNode(c, n, x.(acc := Prepared(x.acc), begun := true));
  }

  lemma TellKeeps(c: Cluster, n: nat, j: nat)
    requires Inv(c) && Possible(c, Tell(n, j))
    ensures Inv(Next(c, Tell(n, j)))
  {
    var x := c.nodes[n];
    assert NodeOk(c, x) && HasFailed(c, j);
    var y := x.(acc := Slot(x.acc, j), told := x.told + {j});
    if x.acc.mounted {
      forall i, k | 0 <= i <= x.cycle && k in c.fails[i]
        ensures c.gens[i] <= c.lvb.gen || (k < |y.acc.submit| && 0 < y.acc.submit[k] < c.gens[i]) {
        assert k != j;
      }
    }
    OneNode(c, n, y);
  }

  lemma FinishKeeps(c: Cluster, n: nat)
    requires Inv(c) && Possible(c, Finish(n))
    ensures Inv(Next(c, Finish(n)))
  {
    var x := c.nodes[n];
    var k := x.cycle + 1;
    FinishedOk(c, x);
    OneNode(c, n, x.(acc := Finished(x.acc, c.gens[k]), cycle := k, begun := false, told := {}));
  }

  lemma FinishedOk(c: Cluster, x: Node)
    requires HistoryOk(c) && NodeOk(c, x) && x.begun && x.cycle + 1 < |c.gens| && x.told == c.fails[x.cycle + 1]
    ensures var k := x.cycle + 1;
      NodeOk(c, x.(acc := Finished(x.acc, c.gens[k]), cycle := k, begun := false, told := {}))
  {
    assert c.gens[x.cycle] < c.gens[x.cycle + 1];
  }

  lemma JoinKeeps(c: Cluster, n: nat)
    requires Inv(c) && Possible(c, Join(n))
    ensures Inv(Next(c, Join(n)))
  {
    var k := |c.gens| - 1;
    assert k > 0 ==> c.gens[0] < c.gens[k];
    OneNode(c, n, Node(Fresh(c.size).(start := c.gens[k]), k, false, {}, Off, {}, Nothing));
  }

  lemma StartKeeps(c: Cluster, n: nat)
    requires Inv(c) && Possible(c, Start(n))
    ensures Inv(Next(c, Start(n)))
  {
    var x := c.nodes[n];
    assert NodeOk(c, x);
    OneNode(c, n, x.(control := if x.acc.block == x.acc.start then Off else Started(x.acc.block, x.acc.start)));
  }

  lemma UnblockKeeps(c: Cluster, n: nat)
    requires Inv(c) && Possible(c, Unblock(n))
    ensures Inv(Next(c, Unblock(n)))
  {
    var x := c.nodes[n];
    assert NodeOk(c, x);
    OneNode(c, n, x.(acc := Unblocked(x.acc, x.control.block, x.control.start), control := Off));
  }

  lemma ResultKeeps(c: Cluster, n: nat, j: nat, r: Recovery.Result)
    requires Inv(c) && Possible(c, Result(n, j, r))
    ensures Inv(Next(c, Result(n, j, r)))
  {
    var x := c.nodes[n];
    assert NodeOk(c, x);
    var m := c.(recovered := if r == Success then c.recovered + {j} else c.recovered);
    MoreRecovered(c, m, j);
    assert NodeOk(m, x);
    OneNode(m, n, x.(acc := Reported(x.acc, j, r), trying := x.trying - {j}));
  }

  lemma MoreRecovered(c: Cluster, m: Cluster, j: nat)
    requires Inv(c) && HasFailed(c, j) && (m == c || m == c.(recovered := c.recovered + {j}))
    ensures Inv(m)
  {
    assert HistoryOk(m) && Grows(c, m);
    HasFailedStays(c, m);
    assert LvbOk(m);
    forall k | k in m.nodes ensures NodeOk(m, m.nodes[k]) {
      OtherNode(c, m, m.nodes[k]);
    }
  }

  lemma MountReadKeeps(c: Cluster, n: nat)
    requires Inv(c) && Possible(c, MountRead(n))
    ensures Inv(Next(c, MountRead(n)))
  {
    var x := c.nodes[n];
    assert NodeOk(c, x);
    OneNode(c, n, x.(seen := if NoBits(c.lvb) then AllClear(c.lvb.gen) else Nothing));
  }

  lemma MountCheckKeeps(c: Cluster, n: nat)
    requires Inv(c) && Possible(c, MountCheck(n))
    ensures Inv(Next(c, MountCheck(n)))
  {
    var x := c.nodes[n];
    assert NodeOk(c, x);
    assert forall i :: 0 <= i <= x.cycle ==> c.gens[i] <= c.gens[x.cycle];
    OneNode(c, n, MountChecked(x));
  }

  // ----- the value block is brought up to date

  /** After the update the value block knows what it knew, and what this node knew. */
  lemma LvbUpdated(c: Cluster, x: Node)
    requires Inv(c) && NodeOk(c, x) && x.acc.mounted
    ensures var d := c.(lvb := LvbAfter(x.acc, c.lvb)); LvbOk(d) && Grows(c, d) && x.acc.start <= d.lvb.gen
  {
    var w := LvbAfter(x.acc, c.lvb);
    var d := c.(lvb := w);
    AccountBound(c, x);
    HasFailedStays(c, d);
    forall i, j: nat | 0 <= i < |c.fails| && c.gens[i] <= w.gen && j in c.fails[i]
      ensures j in c.recovered || w.bits[j] {
      if c.gens[i] > c.lvb.gen {
        assert c.gens[i] <= x.acc.start && i <= x.cycle;
        assert Passed(x.acc, c.lvb.gen, j);
      }
    }
    forall j: nat | j < |w.bits| && w.bits[j] ensures HasFailed(d, j) {
      assert HasFailed(c, j);
    }
  }

  /** ... and the node has nothing left to add for the generations before its own. */
  lemma AccountUpdated(c: Cluster, x: Node)
    requires Inv(c) && NodeOk(c, x) && x.acc.mounted && !x.begun
    ensures var d := c.(lvb := LvbAfter(x.acc, c.lvb)); NodeOk(d, x.(acc := AccountAfter(x.acc, c.lvb), control := Off))
  {
    var d := c.(lvb := LvbAfter(x.acc, c.lvb));
    LvbUpdated(c, x);
    OtherNode(c, d, x);
    var y := x.(acc := AccountAfter(x.acc, c.lvb), control := Off);
    forall i | 0 <= i <= y.cycle ensures d.gens[i] <= d.lvb.gen {
      assert d.gens[i] <= d.gens[y.cycle];
    }
  }

  lemma InvUpdated(c: Cluster, x: Node)
    requires Inv(c) && NodeOk(c, x) && x.acc.mounted
    ensures Inv(c.(lvb := LvbAfter(x.acc, c.lvb)))
  {
    var d := c.(lvb := LvbAfter(x.acc, c.lvb));
    LvbUpdated(c, x);
    HasFailedStays(c, d);
    forall m | m in d.nodes ensures NodeOk(d, d.nodes[m]) {
      OtherNode(c, d, d.nodes[m]);
    }
  }

  /** The node moves on: to recover journals, or to unblock when there are none. */
  lemma Scans(d: Cluster, x: Node, block: nat)
    requires Inv(d) && NodeOk(d, x) && x.control == Off && x.acc.mounted && block != x.acc.start
    requires x.acc.start <= d.lvb.gen
    ensures var todo := set i: nat | i < |d.lvb.bits| && d.lvb.bits[i];
      NodeOk(d, if todo != {} then x.(trying := x.trying + todo) else x.(control := Scanned(block, x.acc.start)))
  {
    var todo := set i: nat | i < |d.lvb.bits| && d.lvb.bits[i];
    if todo == {} {
      forall i: nat | i < |d.lvb.bits| ensures !d.lvb.bits[i] {
        assert i !in todo;
      }
      NoBitsMeansRecovered(d, x.acc.start);
    }
  }

  lemma UpdateKeeps(c: Cluster, n: nat)
    requires Inv(c) && Possible(c, Update(n))
    ensures Inv(Next(c, Update(n)))
  {
    var x := c.nodes[n];
    assert NodeOk(c, x);
    if x.acc.block == x.control.block && x.acc.start == x.control.start {
      UpdateWrites(c, n);
    } else {
      OneNode(c, n, x.(control := Off));
    }
  }

  lemma UpdateWrites(c: Cluster, n: nat)
    requires Inv(c) && Possible(c, Update(n))
    requires c.nodes[n].acc.block == c.nodes[n].control.block && c.nodes[n].acc.start == c.nodes[n].control.start
    ensures Inv(Updated(c, n)) && Updated(c, n).lvb.gen >= c.lvb.gen
  {
    var x := c.nodes[n];
    assert NodeOk(c, x);
    var d := c.(lvb := LvbAfter(x.acc, c.lvb));
    InvUpdated(c, x);
    LvbUpdated(c, x);
    AccountUpdated(c, x);
    var y := x.(acc := AccountAfter(x.acc, c.lvb), control := Off);
    Scans(d, y, x.control.block);
    var todo := set i: nat | i < |d.lvb.bits| && d.lvb.bits[i];
    OneNode(d, n, if todo != {} then y.(trying := y.trying + todo)
      else y.(control := Scanned(x.control.block, y.acc.start)));
  }

  lemma NoBitsMeansRecovered(c: Cluster, g: nat)
    requires HistoryOk(c) && LvbOk(c) && g <= c.lvb.gen
    requires forall i: nat :: i < |c.lvb.bits| ==> !c.lvb.bits[i]
    ensures RecoveredUpTo(c, g)
  {
  }

  lemma StepKeepsInv(c: Cluster, e: Event)
    requires Inv(c) && Possible(c, e)
    ensures Inv(Next(c, e))
  {
    match e
    case Fail(jids, gen, dead) => FailKeeps(c, jids, gen, dead);
    case Join(n) => JoinKeeps(c, n);
    case Prep(n) => PrepKeeps(c, n);
    case Tell(n, j) => TellKeeps(c, n, j);
    case Finish(n) => FinishKeeps(c, n);
    case Start(n) => StartKeeps(c, n);
    case Update(n) => UpdateKeeps(c, n);
    case Unblock(n) => UnblockKeeps(c, n);
    case Result(n, j, r) => ResultKeeps(c, n, j, r);
    case MountRead(n) => MountReadKeeps(c, n);
    case MountCheck(n) => MountCheckKeeps(c, n);
  }

  lemma {:induction false} RunInv(cs: seq<Cluster>, es: seq<Event>, k: nat)
    requires IsRun(cs, es) && k <= |es|
    ensures Inv(cs[k])
  {
    if k == 0 {
      assert LvbOk(cs[0]);
    } else {
      RunInv(cs, es, k - 1);
      StepKeepsInv(cs[k - 1], es[k - 1]);
    }
  }

  /** Whenever a node's locks are unblocked, every journal that lost its owner in a generation the node has
      reached has been recovered, by this node or another. */
  lemma UnblockedMeansRecovered(cs: seq<Cluster>, es: seq<Event>, k: nat, n: nat)
    requires IsRun(cs, es) && k <= |es| && n in cs[k].nodes && !cs[k].nodes[n].acc.blocked
    ensures RecoveredUpTo(cs[k], cs[k].nodes[n].acc.start)
    ensures forall j :: j in cs[k].recovered ==> HasFailed(cs[k], j)
  {
    RunInv(cs, es, k);
  }

  /** The generation in the value block never goes back, whoever writes it. */
  lemma {:induction false} GenerationNeverDecreases(cs: seq<Cluster>, es: seq<Event>, i: nat, k: nat)
    requires IsRun(cs, es) && i <= k <= |es|
    ensures cs[i].lvb.gen <= cs[k].lvb.gen
    decreases k
  {
    if i < k {
      GenerationNeverDecreases(cs, es, i, k - 1);
      RunInv(cs, es, k - 1);
      StepGeneration(cs[k - 1], es[k - 1]);
    }
  }

  lemma StepGeneration(c: Cluster, e: Event)
    requires Inv(c) && Possible(c, e)
    ensures c.lvb.gen <= Next(c, e).lvb.gen
  {
    if e.Update? {
      var x := c.nodes[e.node];
      if x.acc.block == x.control.block && x.acc.start == x.control.start {
        UpdateWrites(c, e.node);
      }
    }
  }
}

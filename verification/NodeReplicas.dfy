/**
  A cluster of node directories over one committed log: any batching, builder
  races and chains of installs. Snapshots need not match their meta: the
  directory heals.
 */
module NodeReplicas {
  import opened Wrappers
  import opened Types
  import opened NodeModel
  import opened Clusters

  type DirectoryCluster = Cluster<Directory>

  function Replay(log: seq<NodeEntry>): NodeReplica {
    Run(FRESH_NODE, log)
  }

  /** The outcome of one action. Unlike for queues, any snapshot that is ahead may be installed. */
  function Next(log: seq<NodeEntry>, c: DirectoryCluster, a: Action): Option<DirectoryCluster> {
    match a
    case ApplyBatch(i, count) =>
      if i < |c.nodes| && c.nodes[i].pos + count <= |log| then
        var n := c.nodes[i];
        var upto := n.pos + count;
        Some(c.(nodes := c.nodes[i := Node(Run(n.replica, log[n.pos..upto]), upto, Max(n.seen, upto))]))
      else None
    case OpenBuilder(i, id) =>
      if i < |c.nodes| then
        var n := c.nodes[i];
        var meta := SnapshotMeta(n.replica.lastApplied, n.replica.lastMembership, id);
        Some(c.(builders := c.builders + [Builder(i, meta, n.pos)]))
      else None
    case Build(b) =>
      if b < |c.builders| && c.builders[b].node < |c.nodes| then
        var n := c.nodes[c.builders[b].node];
        Some(c.(snaps := c.snaps + [Snap(n.replica.state, c.builders[b].meta, c.builders[b].pos, n.seen)]))
      else None
    case Install(i, k) =>
      if i < |c.nodes| && k < |c.snaps| && c.nodes[i].pos < c.snaps[k].pos then
        var s := c.snaps[k];
        Some(c.(nodes := c.nodes[i := Node(Installed(s.data, s.meta), s.pos, s.seen)]))
      else None
  }

  function After(log: seq<NodeEntry>, c: DirectoryCluster, acts: seq<Action>): Option<DirectoryCluster>
    decreases |acts|
  {
    if acts == [] then Some(c) else
      var next := Next(log, c, acts[0]);
      if next.None? then None else After(log, next.value, acts[1..])
  }

  /** Data standing at `pos` that may be ahead, but never of what the replay of `log[..k]` knows. */
  ghost predicate HealsAt(log: seq<NodeEntry>, d: Directory, pos: nat, k: nat)
    requires pos <= k <= |log|
  {
    Run(Replica(d, None, NO_MEMBERSHIP), log[pos..k]).state == Replay(log[..k]).state
  }

  /** Applying the log from `pos` gives the full replay from `seen` on. */
  ghost predicate Heals(log: seq<NodeEntry>, d: Directory, pos: nat, seen: nat) {
    pos <= seen <= |log| && forall k | seen <= k <= |log| :: HealsAt(log, d, pos, k)
  }

  ghost predicate MetaAt(log: seq<NodeEntry>, pos: nat, lastApplied: Option<LogId>, lastMembership: StoredMembership) {
    && pos <= |log|
    && lastApplied == Replay(log[..pos]).lastApplied
    && lastMembership == Replay(log[..pos]).lastMembership
  }

  /** How far the furthest of some nodes has come. */
  function Front(ns: seq<Node<Directory>>): nat {
    if ns == [] then 0 else Max(Front(ns[..|ns| - 1]), ns[|ns| - 1].pos)
  }

  /** Some node has come as far as `seen`. */
  predicate Reached(c: DirectoryCluster, seen: nat) {
    seen <= Front(c.nodes)
  }

  ghost predicate NodeOk(log: seq<NodeEntry>, c: DirectoryCluster, n: Node<Directory>) {
    && MetaAt(log, n.pos, n.replica.lastApplied, n.replica.lastMembership)
    && Heals(log, n.replica.state, n.pos, n.seen) && Reached(c, n.seen)
  }

  ghost predicate BuilderOk(log: seq<NodeEntry>, c: DirectoryCluster, b: Builder) {
    && b.node < |c.nodes| && b.pos <= c.nodes[b.node].pos
    && MetaAt(log, b.pos, b.meta.lastLogId, b.meta.lastMembership)
  }

  ghost predicate SnapOk(log: seq<NodeEntry>, c: DirectoryCluster, s: Snap<Directory>) {
    && MetaAt(log, s.pos, s.meta.lastLogId, s.meta.lastMembership)
    && Heals(log, s.data, s.pos, s.seen) && Reached(c, s.seen)
  }

  ghost predicate Inv(log: seq<NodeEntry>, c: DirectoryCluster) {
    && (forall i | 0 <= i < |c.nodes| :: NodeOk(log, c, c.nodes[i]))
    && (forall b | 0 <= b < |c.builders| :: BuilderOk(log, c, c.builders[b]))
    && (forall k | 0 <= k < |c.snaps| :: SnapOk(log, c, c.snaps[k]))
  }

  // Healing.

  /** What a run of entries leaves at one node, from any two directories. */
  lemma SameWrites(r: NodeReplica, r': NodeReplica, es: seq<NodeEntry>, id: u64)
    ensures (exists k :: 0 <= k < |es| && Upserts(es[k], id)) ==>
              && id in Run(r, es).state && id in Run(r', es).state
              && Run(r, es).state[id] == Run(r', es).state[id]
  {
    DirectoryIsLastWrite(r, es, id);
    DirectoryIsLastWrite(r', es, id);
    if exists k :: 0 <= k < |es| && Upserts(es[k], id) {
      var k :| LastUpsert(es, id, k);
    }
  }

  /** Directories depend on the starting directory alone. */
  lemma {:induction false} StateOnly(r: NodeReplica, r': NodeReplica, es: seq<NodeEntry>)
    requires r.state == r'.state
    ensures Run(r, es).state == Run(r', es).state
  {
    if es != [] {
      StateOnly(r, r', es[..|es| - 1]);
    }
  }

  /** What neither `a` nor `b` writes, and `b` over `r` leaves as in `full`, `r` has as in `full`. */
  lemma SameUnwritten(r: NodeReplica, full: Directory, a: seq<NodeEntry>, b: seq<NodeEntry>, id: u64)
    requires Run(r, b).state == full && !exists k :: 0 <= k < |a + b| && Upserts((a + b)[k], id)
    ensures id in Run(r, a + b).state <==> id in full
    ensures id in full ==> Run(r, a + b).state[id] == full[id]
  {
    DirectoryIsLastWrite(r, a + b, id);
    forall k | 0 <= k < |b| ensures !Upserts(b[k], id) {
      assert b[k] == (a + b)[|a| + k];
    }
    DirectoryIsLastWrite(r, b, id);
  }

  /**
    If replaying `b` over `d` gives what `a + b` gives from somewhere, then so does
    replaying `a + b` over `d`: what `a` writes and `b` does not, `d` must already have.
   */
  lemma HealsFromEarlier(r: NodeReplica, from: NodeReplica, a: seq<NodeEntry>, b: seq<NodeEntry>)
    requires Run(r, b).state == Run(from, a + b).state
    ensures Run(r, a + b).state == Run(from, a + b).state
  {
    var full, again := Run(from, a + b).state, Run(r, a + b).state;
    forall id
      ensures id in again <==> id in full
      ensures id in full ==> again[id] == full[id]
    {
      if exists k :: 0 <= k < |a + b| && Upserts((a + b)[k], id) {
        SameWrites(r, from, a + b, id);
      } else {
        SameUnwritten(r, full, a, b, id);
      }
    }
  }

  /** Data that heals from `pos` heals from any earlier position as well. */
  lemma BuildHeals(log: seq<NodeEntry>, d: Directory, early: nat, pos: nat, seen: nat)
    requires Heals(log, d, pos, seen) && early <= pos
    ensures Heals(log, d, early, seen)
  {
    var r := Replica(d, None, NO_MEMBERSHIP);
    forall k | seen <= k <= |log| ensures HealsAt(log, d, early, k) {
      assert HealsAt(log, d, pos, k);
      RunAppend(FRESH_NODE, log[..early], log[early..k]);
      assert log[..early] + log[early..k] == log[..k];
      assert log[early..pos] + log[pos..k] == log[early..k];
      HealsFromEarlier(r, Replay(log[..early]), log[early..pos], log[pos..k]);
    }
  }

  /** Applying entries to data that heals leaves data that heals. */
  lemma BatchHeals(log: seq<NodeEntry>, r: NodeReplica, pos: nat, seen: nat, upto: nat)
    requires Heals(log, r.state, pos, seen) && pos <= upto <= |log|
    ensures Heals(log, Run(r, log[pos..upto]).state, upto, Max(seen, upto))
  {
    var next := Run(r, log[pos..upto]);
    forall k | Max(seen, upto) <= k <= |log| ensures HealsAt(log, next.state, upto, k) {
      assert HealsAt(log, r.state, pos, k);
      HealsOn(log, r, pos, upto, k);
    }
    hide HealsAt, Run;
  }

  lemma HealsOn(log: seq<NodeEntry>, r: NodeReplica, pos: nat, upto: nat, k: nat)
    requires pos <= upto <= k <= |log| && HealsAt(log, r.state, pos, k)
    ensures HealsAt(log, Run(r, log[pos..upto]).state, upto, k)
  {
    hide Run;
    var next := Run(r, log[pos..upto]);
    assert log[pos..upto] + log[upto..k] == log[pos..k];
    RunAppend(r, log[pos..upto], log[upto..k]);
    StateOnly(r, Replica(r.state, None, NO_MEMBERSHIP), log[pos..k]);
    StateOnly(next, Replica(next.state, None, NO_MEMBERSHIP), log[upto..k]);
  }

  lemma BatchMeta(log: seq<NodeEntry>, r: NodeReplica, pos: nat, upto: nat)
    requires MetaAt(log, pos, r.lastApplied, r.lastMembership) && pos <= upto <= |log|
    ensures MetaAt(log, upto, Run(r, log[pos..upto]).lastApplied, Run(r, log[pos..upto]).lastMembership)
  {
    RunMeta(r, Replay(log[..pos]), log[pos..upto]);
    RunAppend(FRESH_NODE, log[..pos], log[pos..upto]);
    assert log[..pos] + log[pos..upto] == log[..upto];
  }

  // Every run keeps the invariant.

  lemma {:induction false} AtMostFront(ns: seq<Node<Directory>>, i: nat)
    requires i < |ns|
    ensures ns[i].pos <= Front(ns)
  {
    if i < |ns| - 1 {
      AtMostFront(ns[..|ns| - 1], i);
    }
  }

  lemma {:induction false} FrontAtMost(ns: seq<Node<Directory>>, bound: nat)
    requires forall i | 0 <= i < |ns| :: ns[i].pos <= bound
    ensures Front(ns) <= bound
  {
    if ns != [] {
      FrontAtMost(ns[..|ns| - 1], bound);
    }
  }

  lemma ReachedLater(c: DirectoryCluster, c': DirectoryCluster, seen: nat)
    requires Reached(c, seen) && |c'.nodes| == |c.nodes|
    requires forall i | 0 <= i < |c.nodes| :: c.nodes[i].pos <= c'.nodes[i].pos
    ensures Reached(c', seen)
  {
    forall i | 0 <= i < |c.nodes| ensures c.nodes[i].pos <= Front(c'.nodes) {
      AtMostFront(c'.nodes, i);
    }
    FrontAtMost(c.nodes, Front(c'.nodes));
  }

  lemma ReachedBy(c: DirectoryCluster, i: nat)
    requires i < |c.nodes|
    ensures Reached(c, c.nodes[i].pos)
  {
    AtMostFront(c.nodes, i);
  }

  /** What was in order stays so while nodes only move forward. */
  lemma OthersKeep(log: seq<NodeEntry>, c: DirectoryCluster, c': DirectoryCluster)
    requires Inv(log, c) && |c'.nodes| == |c.nodes|
    requires forall i | 0 <= i < |c.nodes| :: c.nodes[i].pos <= c'.nodes[i].pos
    ensures forall i | 0 <= i < |c.nodes| :: NodeOk(log, c', c.nodes[i])
    ensures forall b | 0 <= b < |c.builders| :: BuilderOk(log, c', c.builders[b])
    ensures forall k | 0 <= k < |c.snaps| :: SnapOk(log, c', c.snaps[k])
  {
    hide Heals, MetaAt, Reached;
    forall i | 0 <= i < |c.nodes| ensures NodeOk(log, c', c.nodes[i]) {
      assert NodeOk(log, c, c.nodes[i]);
      ReachedLater(c, c', c.nodes[i].seen);
    }
    forall b | 0 <= b < |c.builders| ensures BuilderOk(log, c', c.builders[b]) {
      assert BuilderOk(log, c, c.builders[b]);
    }
    forall k | 0 <= k < |c.snaps| ensures SnapOk(log, c', c.snaps[k]) {
      assert SnapOk(log, c, c.snaps[k]);
      ReachedLater(c, c', c.snaps[k].seen);
    }
  }

  lemma ApplyKeeps(log: seq<NodeEntry>, c: DirectoryCluster, c': DirectoryCluster, n: Node<Directory>, upto: nat)
    requires NodeOk(log, c, n) && n.pos <= upto <= |log|
    requires Reached(c', n.seen) && Reached(c', upto)
    ensures NodeOk(log, c', Node(Run(n.replica, log[n.pos..upto]), upto, Max(n.seen, upto)))
  {
    hide Reached;
    BatchHeals(log, n.replica, n.pos, n.seen, upto);
    BatchMeta(log, n.replica, n.pos, upto);
    hide Heals, MetaAt;
  }

  lemma BuildKeeps(log: seq<NodeEntry>, c: DirectoryCluster, b: Builder, seen: nat)
    requires BuilderOk(log, c, b) && NodeOk(log, c, c.nodes[b.node]) && seen == c.nodes[b.node].seen
    ensures SnapOk(log, c, Snap(c.nodes[b.node].replica.state, b.meta, b.pos, seen))
  {
    var n := c.nodes[b.node];
    BuildHeals(log, n.replica.state, b.pos, n.pos, n.seen);
  }

  lemma ReplacedNodeKeeps(log: seq<NodeEntry>, c: DirectoryCluster, i: nat, n: Node<Directory>)
    requires Inv(log, c) && i < |c.nodes| && c.nodes[i].pos <= n.pos
    requires NodeOk(log, c.(nodes := c.nodes[i := n]), n)
    ensures Inv(log, c.(nodes := c.nodes[i := n]))
  {
    hide NodeOk, BuilderOk, SnapOk;
    OthersKeep(log, c, c.(nodes := c.nodes[i := n]));
  }

  lemma ApplyBatchKeeps(log: seq<NodeEntry>, c: DirectoryCluster, i: nat, count: nat)
    requires Inv(log, c) && Next(log, c, ApplyBatch(i, count)).Some?
    ensures Inv(log, Next(log, c, ApplyBatch(i, count)).value)
  {
    hide Heals, MetaAt, Run, Reached;
    var n, upto := c.nodes[i], c.nodes[i].pos + count;
    var n' := Node(Run(n.replica, log[n.pos..upto]), upto, Max(n.seen, upto));
    var c' := c.(nodes := c.nodes[i := n']);
    assert NodeOk(log, c, n);
    ReachedLater(c, c', n.seen);
    ReachedBy(c', i);
    ApplyKeeps(log, c, c', n, upto);
    ReplacedNodeKeeps(log, c, i, n');
  }

  lemma InstallKeeps(log: seq<NodeEntry>, c: DirectoryCluster, i: nat, k: nat)
    requires Inv(log, c) && Next(log, c, Install(i, k)).Some?
    ensures Inv(log, Next(log, c, Install(i, k)).value)
  {
    hide Heals, MetaAt, Reached;
    var s := c.snaps[k];
    var n' := Node(Installed(s.data, s.meta), s.pos, s.seen);
    assert SnapOk(log, c, s);
    ReachedLater(c, c.(nodes := c.nodes[i := n']), s.seen);
    ReplacedNodeKeeps(log, c, i, n');
  }

  lemma OpenBuilderKeeps(log: seq<NodeEntry>, c: DirectoryCluster, i: nat, id: string)
    requires Inv(log, c) && Next(log, c, OpenBuilder(i, id)).Some?
    ensures Inv(log, Next(log, c, OpenBuilder(i, id)).value)
  {
    hide Heals, MetaAt, Reached;
    var c' := Next(log, c, OpenBuilder(i, id)).value;
    OthersKeep(log, c, c');
    assert NodeOk(log, c, c.nodes[i]);
    assert BuilderOk(log, c', c'.builders[|c.builders|]);
    hide NodeOk, BuilderOk, SnapOk;
  }

  lemma BuildStepKeeps(log: seq<NodeEntry>, c: DirectoryCluster, b: nat)
    requires Inv(log, c) && Next(log, c, Build(b)).Some?
    ensures Inv(log, Next(log, c, Build(b)).value)
  {
    hide Heals, MetaAt, Reached;
    var c' := Next(log, c, Build(b)).value;
    OthersKeep(log, c, c');
    BuildKeeps(log, c', c.builders[b], c.nodes[c.builders[b].node].seen);
    hide NodeOk, BuilderOk, SnapOk;
  }

  /** Every action of the cluster keeps all of it healing. */
  lemma NextKeepsInv(log: seq<NodeEntry>, c: DirectoryCluster, a: Action)
    requires Inv(log, c) && Next(log, c, a).Some?
    ensures Inv(log, Next(log, c, a).value)
  {
    hide Inv, Next;
    match a
    case ApplyBatch(i, count) => ApplyBatchKeeps(log, c, i, count);
    case OpenBuilder(i, id) => OpenBuilderKeeps(log, c, i, id);
    case Build(b) => BuildStepKeeps(log, c, b);
    case Install(i, k) => InstallKeeps(log, c, i, k);
  }

  lemma {:induction false} RunKeepsInv(log: seq<NodeEntry>, c: DirectoryCluster, acts: seq<Action>)
    requires Inv(log, c) && After(log, c, acts).Some?
    ensures Inv(log, After(log, c, acts).value)
    decreases |acts|
  {
    hide Inv, Next;
    if acts != [] {
      NextKeepsInv(log, c, acts[0]);
      RunKeepsInv(log, Next(log, c, acts[0]).value, acts[1..]);
    }
  }

  lemma StartedOk(log: seq<NodeEntry>, c: DirectoryCluster)
    requires StartedAs(c, FRESH_NODE)
    ensures Inv(log, c)
  {
    forall i | 0 <= i < |c.nodes| ensures NodeOk(log, c, c.nodes[i]) {
      assert log[..0] == [];
      forall k | 0 <= k <= |log| ensures HealsAt(log, FRESH_NODE.state, 0, k) {
        assert log[0..k] == log[..k];
      }
      assert 0 <= c.nodes[i].pos;
    }
  }

  // What the steps achieve.

  /** A batch moves one replica by the entries it applies, and touches nothing else. */
  lemma BatchAdvances(log: seq<NodeEntry>, c: DirectoryCluster, i: nat, count: nat)
    requires i < |c.nodes| && c.nodes[i].pos + count <= |log| && c.nodes[i].replica == Replay(log[..c.nodes[i].pos])
    ensures var (n, upto) := (c.nodes[i], c.nodes[i].pos + count);
            Next(log, c, ApplyBatch(i, count)) ==
            Some(c.(nodes := c.nodes[i := Node(Replay(log[..upto]), upto, Max(n.seen, upto))]))
  {
    var n, upto := c.nodes[i], c.nodes[i].pos + count;
    RunAppend(FRESH_NODE, log[..n.pos], log[n.pos..upto]);
    assert log[..n.pos] + log[n.pos..upto] == log[..upto];
  }

  lemma ThreeSteps(log: seq<NodeEntry>, c: DirectoryCluster, a1: Action, a2: Action, a3: Action)
    requires Next(log, c, a1).Some? && Next(log, Next(log, c, a1).value, a2).Some?
    ensures After(log, c, [a1, a2, a3]) == Next(log, Next(log, Next(log, c, a1).value, a2).value, a3)
  {
    hide Next;
    assert [a1, a2, a3][1..] == [a2, a3] && [a2, a3][1..] == [a3] && [a3][1..] == [];
    var c2 := Next(log, Next(log, c, a1).value, a2).value;
    assert After(log, c2, [a3]) == if Next(log, c2, a3).None? then None else After(log, Next(log, c2, a3).value, []);
    assert Next(log, c2, a3).Some? ==> After(log, Next(log, c2, a3).value, []) == Some(Next(log, c2, a3).value);
  }

  /** A replica that lags can always be brought level by a snapshot of one ahead of it, and then equals it in everything. */
  lemma SnapshotCatchesUp(log: seq<NodeEntry>, c: DirectoryCluster, i: nat, j: nat, id: string)
    requires i < |c.nodes| && j < |c.nodes| && c.nodes[i].pos < c.nodes[j].pos
    ensures var after := After(log, c, [OpenBuilder(j, id), Build(|c.builders|), Install(i, |c.snaps|)]);
            after.Some? && after.value.nodes == c.nodes[i := c.nodes[j]]
  {
    var n := c.nodes[j];
    var meta := SnapshotMeta(n.replica.lastApplied, n.replica.lastMembership, id);
    var c1 := c.(builders := c.builders + [Builder(j, meta, n.pos)]);
    var c2 := c1.(snaps := c.snaps + [Snap(n.replica.state, meta, n.pos, n.seen)]);
    assert Next(log, c, OpenBuilder(j, id)) == Some(c1);
    assert c1.builders[|c.builders|] == Builder(j, meta, n.pos);
    assert Next(log, c1, Build(|c.builders|)) == Some(c2);
    assert c2.snaps[|c.snaps|] == Snap(n.replica.state, meta, n.pos, n.seen);
    ThreeSteps(log, c, OpenBuilder(j, id), Build(|c.builders|), Install(i, |c.snaps|));
    hide After;
  }

  /** The builder race: what is applied between opening and building is in the data but not in the meta. */
  lemma RacedSnapshot(log: seq<NodeEntry>, c: DirectoryCluster, j: nat, id: string, count: nat)
    requires j < |c.nodes| && c.nodes[j].pos + count <= |log|
    requires c.nodes[j].replica == Replay(log[..c.nodes[j].pos]) && c.nodes[j].seen == c.nodes[j].pos
    ensures var (n, upto) := (c.nodes[j], c.nodes[j].pos + count);
            var after := After(log, c, [OpenBuilder(j, id), ApplyBatch(j, count), Build(|c.builders|)]);
            && after.Some? && after.value.nodes == c.nodes[j := Node(Replay(log[..upto]), upto, upto)]
            && after.value.snaps == c.snaps + [Snap(Replay(log[..upto]).state,
                                                    SnapshotMeta(n.replica.lastApplied, n.replica.lastMembership, id),
                                                    n.pos, upto)]
  {
    var n, upto := c.nodes[j], c.nodes[j].pos + count;
    var meta := SnapshotMeta(n.replica.lastApplied, n.replica.lastMembership, id);
    var c1 := c.(builders := c.builders + [Builder(j, meta, n.pos)]);
    assert Next(log, c, OpenBuilder(j, id)) == Some(c1);
    BatchAdvances(log, c1, j, count);
    var c2 := Next(log, c1, ApplyBatch(j, count)).value;
    assert c2.builders[|c.builders|] == Builder(j, meta, n.pos);
    ThreeSteps(log, c, OpenBuilder(j, id), ApplyBatch(j, count), Build(|c.builders|));
    hide After;
  }

  // What it means.

  lemma AppliedId(log: seq<NodeEntry>, pos: nat)
    requires pos <= |log|
    ensures Replay(log[..pos]).lastApplied == if pos == 0 then None else Some(log[pos - 1].logId)
  {
  }

  /**
    Let any replica, however its data came about, apply the log up to where the
    furthest replica stands or beyond: it then is exactly the full replay. (Where it
    stands shows in its applied id.)
   */
  lemma EveryoneHeals(log: seq<NodeEntry>, c: DirectoryCluster, acts: seq<Action>, i: nat, upto: nat)
    requires StartedAs(c, FRESH_NODE) && After(log, c, acts).Some? && i < |After(log, c, acts).value.nodes|
    requires forall j | 0 <= j < |After(log, c, acts).value.nodes| :: After(log, c, acts).value.nodes[j].pos <= upto
    requires upto <= |log|
    ensures var n := After(log, c, acts).value.nodes[i];
            && n.replica.lastApplied == (if n.pos == 0 then None else Some(log[n.pos - 1].logId))
            && Run(n.replica, log[n.pos..upto]) == Replay(log[..upto])
  {
    StartedOk(log, c);
    RunKeepsInv(log, c, acts);
    var after := After(log, c, acts).value;
    hide After, Reached, Heals, MetaAt;
    assert NodeOk(log, after, after.nodes[i]);
    NodeHeals(log, after, after.nodes[i], upto);
    hide NodeOk, Run;
  }

  /** Every replica's membership is the one the log set last before the replica's position. */
  lemma ReplicaMembership(log: seq<NodeEntry>, c: DirectoryCluster, acts: seq<Action>, i: nat)
    requires StartedAs(c, FRESH_NODE) && After(log, c, acts).Some? && i < |After(log, c, acts).value.nodes|
    ensures var n := After(log, c, acts).value.nodes[i];
            n.pos <= |log| && MembershipAfter(n.replica.lastMembership, log[..n.pos], NO_MEMBERSHIP)
  {
    StartedOk(log, c);
    RunKeepsInv(log, c, acts);
    var after := After(log, c, acts).value;
    hide After, Reached, Heals;
    assert NodeOk(log, after, after.nodes[i]);
    MembershipIsLast(FRESH_NODE, log[..after.nodes[i].pos]);
  }

  lemma NodeHeals(log: seq<NodeEntry>, c: DirectoryCluster, n: Node<Directory>, upto: nat)
    requires NodeOk(log, c, n) && upto <= |log| && n.pos <= upto
    requires forall j | 0 <= j < |c.nodes| :: c.nodes[j].pos <= upto
    ensures n.replica.lastApplied == (if n.pos == 0 then None else Some(log[n.pos - 1].logId))
    ensures Run(n.replica, log[n.pos..upto]) == Replay(log[..upto])
  {
    hide Run;
    FrontAtMost(c.nodes, upto);
    assert HealsAt(log, n.replica.state, n.pos, upto);
    StateOnly(n.replica, Replica(n.replica.state, None, NO_MEMBERSHIP), log[n.pos..upto]);
    BatchMeta(log, n.replica, n.pos, upto);
    AppliedId(log, n.pos);
  }

  /** So two replicas that are both as far as anyone are equal: addresses, membership and applied id. */
  lemma FrontRunnersAgree(log: seq<NodeEntry>, c: DirectoryCluster, acts: seq<Action>, i: nat, j: nat)
    requires StartedAs(c, FRESH_NODE) && After(log, c, acts).Some?
    requires i < |After(log, c, acts).value.nodes| && j < |After(log, c, acts).value.nodes|
    requires var nodes := After(log, c, acts).value.nodes;
             forall k | 0 <= k < |nodes| :: nodes[k].pos <= nodes[i].pos == nodes[j].pos <= |log|
    ensures var nodes := After(log, c, acts).value.nodes;
            nodes[i].replica == nodes[j].replica == Replay(log[..nodes[i].pos])
  {
    var nodes := After(log, c, acts).value.nodes;
    EveryoneHeals(log, c, acts, i, nodes[i].pos);
    EveryoneHeals(log, c, acts, j, nodes[i].pos);
    assert log[nodes[i].pos..nodes[i].pos] == [];
  }
}

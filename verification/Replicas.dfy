/**
  A cluster of replicas over one committed log: any batching, any builder races,
  any installs of snapshots that are ahead and pass the honesty condition.
 */
module Replicas {
  import opened Wrappers
  import opened Types
  import opened QueueModel
  import opened QueueHistory
  import opened Snapshots
  import opened Clusters

  type QueueNode = Node<Queues>
  type QueueSnap = Snap<Queues>
  type QueueCluster = Cluster<Queues>

  /** The outcome of one action, or `None` where the action cannot happen. */
  ghost function Next(log: seq<QueueEntry>, c: QueueCluster, a: Action): Option<QueueCluster> {
    match a
    case ApplyBatch(i, count) =>
      if i < |c.nodes| && c.nodes[i].pos + count <= |log| then
        var n := c.nodes[i];
        var upto := n.pos + count;
        Some(c.(nodes := c.nodes[i := Node(Run(n.replica, log[n.pos..upto]), upto, Max(n.seen, upto))]))
      else None
    case OpenBuilder(i, id) =>
      if i < |c.nodes| then
        var n := c.nodes[i];
        var meta := SnapshotMeta(n.replica.lastApplied, n.replica.lastMembership, id);
        Some(c.(builders := c.builders + [Builder(i, meta, n.pos)]))
      else None
    case Build(b) =>
      if b < |c.builders| && c.builders[b].node < |c.nodes| then
        var n := c.nodes[c.builders[b].node];
        Some(c.(snaps := c.snaps + [Snap(n.replica.state, c.builders[b].meta, c.builders[b].pos, n.seen)]))
      else None
    case Install(i, k) =>
      if i < |c.nodes| && k < |c.snaps| && c.nodes[i].pos < c.snaps[k].pos && Honest(log, c.snaps[k]) then
        var s := c.snaps[k];
        Some(c.(nodes := c.nodes[i := Node(Installed(s.data, s.meta), s.pos, s.seen)]))
      else None
  }

  ghost predicate Honest(log: seq<QueueEntry>, s: QueueSnap) {
    s.pos <= s.seen <= |log| && NothingLeftToDo(s.data, log[s.pos..s.seen])
  }

  ghost function After(log: seq<QueueEntry>, c: QueueCluster, acts: seq<Action>): Option<QueueCluster>
    decreases |acts|
  {
    if acts == [] then Some(c) else
      var next := Next(log, c, acts[0]);
      if next.None? then None else After(log, next.value, acts[1..])
  }

  ghost predicate Started(c: QueueCluster) {
    StartedAs(c, FRESH)
  }

  ghost predicate MetaAt(log: seq<QueueEntry>, pos: nat, lastApplied: Option<LogId>, lastMembership: StoredMembership) {
    && pos <= |log|
    && lastApplied == Replay(log[..pos]).lastApplied
    && lastMembership == Replay(log[..pos]).lastMembership
  }

  ghost predicate NodeOk(log: seq<QueueEntry>, n: QueueNode) {
    && n.pos <= n.seen <= |log|
    && MetaAt(log, n.pos, n.replica.lastApplied, n.replica.lastMembership)
    && n.replica.state == Replay(log[..n.seen]).state
    && NothingLeftToDo(n.replica.state, log[n.pos..n.seen])
  }

  ghost predicate BuilderOk(log: seq<QueueEntry>, c: QueueCluster, b: Builder) {
    && b.node < |c.nodes| && b.pos <= c.nodes[b.node].pos
    && MetaAt(log, b.pos, b.meta.lastLogId, b.meta.lastMembership)
  }

  ghost predicate SnapOk(log: seq<QueueEntry>, s: QueueSnap) {
    && s.pos <= s.seen <= |log|
    && MetaAt(log, s.pos, s.meta.lastLogId, s.meta.lastMembership)
    && s.data == Replay(log[..s.seen]).state
  }

  ghost predicate Inv(log: seq<QueueEntry>, c: QueueCluster) {
    && (forall i | 0 <= i < |c.nodes| :: NodeOk(log, c.nodes[i]))
    && (forall b | 0 <= b < |c.builders| :: BuilderOk(log, c, c.builders[b]))
    && (forall k | 0 <= k < |c.snaps| :: SnapOk(log, c.snaps[k]))
  }

  lemma ReplayFrom(log: seq<QueueEntry>, from: nat, upto: nat)
    requires from <= upto <= |log|
    ensures Run(Replay(log[..from]), log[from..upto]) == Replay(log[..upto])
  {
    RunAppend(FRESH, log[..from], log[from..upto]);
    assert log[..from] + log[from..upto] == log[..upto];
  }

  /** A batch brings a node forward, whether or not its data was already there. */
  lemma BatchKeeps(log: seq<QueueEntry>, n: QueueNode, upto: nat)
    requires NodeOk(log, n) && n.pos <= upto <= |log|
    ensures NodeOk(log, Node(Run(n.replica, log[n.pos..upto]), upto, Max(n.seen, upto)))
  {
    var clean := Replay(log[..n.pos]);
    assert n.replica == clean.(state := n.replica.state);
    RunMeta(clean, n.replica.state, log[n.pos..upto]);
    ReplayFrom(log, n.pos, upto);
    var done := if upto <= n.seen then upto else n.seen;
    IdleSlice(n.replica.state, log, n.pos, n.seen, n.pos, done);
    IdleSlice(n.replica.state, log, n.pos, n.seen, done, n.seen);
    IdleRun(n.replica, log[n.pos..done]);
    if upto > n.seen {
      ReplayFrom(log, n.seen, upto);
      RunAppend(n.replica, log[n.pos..n.seen], log[n.seen..upto]);
      assert log[n.pos..n.seen] + log[n.seen..upto] == log[n.pos..upto];
      StateOnly(Run(n.replica, log[n.pos..n.seen]), Replay(log[..n.seen]), log[n.seen..upto]);
    }
  }

  lemma IdleSlice(s: Queues, log: seq<QueueEntry>, from: nat, upto: nat, a: nat, b: nat)
    requires from <= a <= b <= upto <= |log| && NothingLeftToDo(s, log[from..upto])
    ensures NothingLeftToDo(s, log[a..b])
  {
    forall i | 0 <= i < b - a ensures Idle(s, log[a..b][i]) {
      assert log[a..b][i] == log[from..upto][a - from + i];
    }
  }

  /** Queue contents depend on the starting contents alone. */
  lemma {:induction false} StateOnly(r: QueueReplica, r': QueueReplica, es: seq<QueueEntry>)
    requires r.state == r'.state
    ensures Run(r, es).state == Run(r', es).state
  {
    if es != [] {
      StateOnly(r, r', es[..|es| - 1]);
    }
  }

  lemma NextKeepsInv(log: seq<QueueEntry>, c: QueueCluster, a: Action)
    requires Inv(log, c) && Next(log, c, a).Some?
    ensures Inv(log, Next(log, c, a).value)
  {
    var c' := Next(log, c, a).value;
    match a
    case ApplyBatch(i, count) =>
      BatchKeeps(log, c.nodes[i], c.nodes[i].pos + count);
      BuildersKeep(log, c, c');
    case OpenBuilder(i, id) => OpenBuilderKeeps(log, c, i, id);
    case Build(b) => BuildKeeps(log, c, b);
    case Install(i, k) =>
      assert SnapOk(log, c.snaps[k]);
      BuildersKeep(log, c, c');
  }

  lemma OpenBuilderKeeps(log: seq<QueueEntry>, c: QueueCluster, i: nat, id: string)
    requires Inv(log, c) && Next(log, c, OpenBuilder(i, id)).Some?
    ensures Inv(log, Next(log, c, OpenBuilder(i, id)).value)
  {
    assert NodeOk(log, c.nodes[i]);
    var c' := Next(log, c, OpenBuilder(i, id)).value;
    assert forall b | 0 <= b < |c.builders| :: BuilderOk(log, c', c.builders[b]);
  }

  lemma BuildKeeps(log: seq<QueueEntry>, c: QueueCluster, b: nat)
    requires Inv(log, c) && Next(log, c, Build(b)).Some?
    ensures Inv(log, Next(log, c, Build(b)).value)
  {
    assert BuilderOk(log, c, c.builders[b]);
    assert NodeOk(log, c.nodes[c.builders[b].node]);
    BuildersKeep(log, c, Next(log, c, Build(b)).value);
  }

  lemma BuildersKeep(log: seq<QueueEntry>, c: QueueCluster, c': QueueCluster)
    requires Inv(log, c) && c'.builders == c.builders && |c'.nodes| == |c.nodes|
    requires forall i | 0 <= i < |c.nodes| :: c.nodes[i].pos <= c'.nodes[i].pos
    ensures forall b | 0 <= b < |c'.builders| :: BuilderOk(log, c', c'.builders[b])
  {
    forall b | 0 <= b < |c'.builders| ensures BuilderOk(log, c', c'.builders[b]) {
      assert BuilderOk(log, c, c.builders[b]);
    }
  }

  lemma {:induction false} RunKeepsInv(log: seq<QueueEntry>, c: QueueCluster, acts: seq<Action>)
    requires Inv(log, c) && After(log, c, acts).Some?
    ensures Inv(log, After(log, c, acts).value)
    decreases |acts|
  {
    if acts != [] {
      NextKeepsInv(log, c, acts[0]);
      RunKeepsInv(log, Next(log, c, acts[0]).value, acts[1..]);
    }
  }

  /**
    Whatever happened, a replica that has caught up with its data is exactly the
    replay of the prefix it applied; two such replicas at one position are equal.
   */
  lemma Convergence(log: seq<QueueEntry>, c: QueueCluster, acts: seq<Action>, i: nat, j: nat)
    requires Started(c) && After(log, c, acts).Some?
    requires i < |After(log, c, acts).value.nodes| && j < |After(log, c, acts).value.nodes|
    ensures var (a, b) := (After(log, c, acts).value.nodes[i], After(log, c, acts).value.nodes[j]);
            && a.pos <= a.seen <= |log|
            && (a.seen == a.pos ==> a.replica == Replay(log[..a.pos]))
            && (a.seen == a.pos == b.pos == b.seen ==> a.replica == b.replica)
  {
    StartedOk(log, c);
    RunKeepsInv(log, c, acts);
    var after := After(log, c, acts).value;
    assert NodeOk(log, after.nodes[i]) && NodeOk(log, after.nodes[j]);
  }

  lemma AppliedId(log: seq<QueueEntry>, pos: nat)
    requires pos <= |log|
    ensures Replay(log[..pos]).lastApplied == if pos == 0 then None else Some(log[pos - 1].logId)
  {
  }

  /**
    What a replica itself can tell: where installed snapshots match their meta, two
    replicas with equal applied ids are equal in queues, counters and membership.
    Applied ids only tell positions apart because log indexes do.
   */
  lemma ConvergenceAtApplied(log: seq<QueueEntry>, c: QueueCluster, acts: seq<Action>, i: nat, j: nat)
    requires Started(c) && After(log, c, acts).Some? && OnlyMatching(log, c, acts)
    requires forall k | 0 <= k < |log| :: log[k].logId.index == k
    requires i < |After(log, c, acts).value.nodes| && j < |After(log, c, acts).value.nodes|
    ensures var (a, b) := (After(log, c, acts).value.nodes[i].replica, After(log, c, acts).value.nodes[j].replica);
            a.lastApplied == b.lastApplied ==> a == b
  {
    StartedOk(log, c);
    MatchingIsReplay(log, c, acts);
    AppliedId(log, After(log, c, acts).value.nodes[i].pos);
    AppliedId(log, After(log, c, acts).value.nodes[j].pos);
  }

  lemma StartedOk(log: seq<QueueEntry>, c: QueueCluster)
    requires Started(c)
    ensures Inv(log, c) && AllReplays(log, c)
  {
    assert log[..0] == [];
    assert NodeOk(log, Node(FRESH, 0, 0));
  }

  /** Every replica's membership and applied id are those the log set last before the replica's position. */
  lemma ReplicaMembership(log: seq<QueueEntry>, c: QueueCluster, acts: seq<Action>, i: nat)
    requires Started(c) && After(log, c, acts).Some? && i < |After(log, c, acts).value.nodes|
    ensures var n := After(log, c, acts).value.nodes[i];
            && n.pos <= |log|
            && MembershipAfter(n.replica.lastMembership, log[..n.pos], NO_MEMBERSHIP)
            && n.replica.lastApplied == (if n.pos == 0 then None else Some(log[n.pos - 1].logId))
  {
    StartedOk(log, c);
    RunKeepsInv(log, c, acts);
    var n := After(log, c, acts).value.nodes[i];
    assert NodeOk(log, n);
    hide After, NothingLeftToDo;
    MembershipIsLast(FRESH, log[..n.pos]);
    AppliedId(log, n.pos);
  }

  /** Every replica at every moment holds the history of some log prefix, installs and drained queues included. */
  lemma ReplicasHoldHistory(log: seq<QueueEntry>, c: QueueCluster, acts: seq<Action>, i: nat, q: string)
    requires Started(c) && After(log, c, acts).Some? && i < |After(log, c, acts).value.nodes|
    ensures var n := After(log, c, acts).value.nodes[i];
            n.pos <= n.seen <= |log| && MatchesHistory(n.replica.state, log[..n.seen], q)
  {
    StartedOk(log, c);
    RunKeepsInv(log, c, acts);
    var n := After(log, c, acts).value.nodes[i];
    assert NodeOk(log, n);
    StateIsHistory(log[..n.seen], q);
  }

  /** The data is what the meta says: whatever was applied since the builder was opened changed nothing. */
  ghost predicate Matches(log: seq<QueueEntry>, s: QueueSnap) {
    s.pos <= |log| && s.data == Replay(log[..s.pos]).state
  }

  /** Every install of the run used a snapshot whose data matches its meta. */
  ghost predicate OnlyMatching(log: seq<QueueEntry>, c: QueueCluster, acts: seq<Action>)
    decreases |acts|
  {
    acts == [] ||
    var next := Next(log, c, acts[0]);
    && (next.Some? && acts[0].Install? ==> Matches(log, c.snaps[acts[0].snap]))
    && (next.Some? ==> OnlyMatching(log, next.value, acts[1..]))
  }

  /** A snapshot matches if and only if the entries it is ahead by publish nothing and pop only empty queues. */
  lemma MatchesIff(log: seq<QueueEntry>, s: QueueSnap)
    requires SnapOk(log, s) && |log| < U64
    ensures Matches(log, s) <==> NothingLeftToDo(Replay(log[..s.pos]).state, log[s.pos..s.seen])
  {
    var r, between := Replay(log[..s.pos]), log[s.pos..s.seen];
    ReplayFrom(log, s.pos, s.seen);
    if NothingLeftToDo(r.state, between) {
      IdleRun(r, between);
    } else if Matches(log, s) {
      var i :| 0 <= i < |between| && !Idle(r.state, between[i]);
      RunCounts(r, between, between[i].payload.data.queue);
      CountsAt(between, between[i].payload.data.queue, i);
      assert false;
    }
  }

  /** So the honesty condition never keeps a matching snapshot from being installed. */
  lemma MatchingIsHonest(log: seq<QueueEntry>, s: QueueSnap)
    requires SnapOk(log, s) && |log| < U64 && Matches(log, s)
    ensures Honest(log, s)
  {
    MatchesIff(log, s);
  }

  ghost predicate AllReplays(log: seq<QueueEntry>, c: QueueCluster) {
    forall i | 0 <= i < |c.nodes| :: c.nodes[i].pos <= |log| && c.nodes[i].replica == Replay(log[..c.nodes[i].pos])
  }

  lemma MatchingStep(log: seq<QueueEntry>, c: QueueCluster, a: Action)
    requires Inv(log, c) && AllReplays(log, c) && Next(log, c, a).Some?
    requires a.Install? ==> Matches(log, c.snaps[a.snap])
    ensures var c' := Next(log, c, a).value;
            && AllReplays(log, c') && |c'.nodes| == |c.nodes|
            && forall i | 0 <= i < |c.nodes| :: c.nodes[i].pos <= c'.nodes[i].pos
  {
    if a.ApplyBatch? {
      ReplayFrom(log, c.nodes[a.node].pos, c.nodes[a.node].pos + a.count);
    } else if a.Install? {
      assert SnapOk(log, c.snaps[a.snap]);
    }
  }

  /** With matching snapshots every replica always is the replay of the prefix it applied, and positions never go back. */
  lemma {:induction false} MatchingIsReplay(log: seq<QueueEntry>, c: QueueCluster, acts: seq<Action>)
    requires Inv(log, c) && AllReplays(log, c) && OnlyMatching(log, c, acts) && After(log, c, acts).Some?
    ensures AllReplays(log, After(log, c, acts).value)
    ensures |After(log, c, acts).value.nodes| == |c.nodes|
    ensures forall i | 0 <= i < |c.nodes| :: c.nodes[i].pos <= After(log, c, acts).value.nodes[i].pos
    decreases |acts|
  {
    hide Inv, AllReplays, Next;
    if acts != [] {
      var next := Next(log, c, acts[0]).value;
      NextKeepsInv(log, c, acts[0]);
      MatchingStep(log, c, acts[0]);
      MatchingIsReplay(log, next, acts[1..]);
      forall i | 0 <= i < |c.nodes|
        ensures c.nodes[i].pos <= After(log, c, acts).value.nodes[i].pos
      {
        assert c.nodes[i].pos <= next.nodes[i].pos;
      }
    }
  }

  /** What a status reader should see of a log prefix: messages published and not yet popped. */
  ghost predicate DepthsOf(d: map<string, nat>, log: seq<QueueEntry>) {
    forall q ::
      && (q in d <==> Published(log, q) != [])
      && (q in d ==> d[q] == |Published(log, q)| - Popped(log, q))
  }

  /** Two reads of one node's depths, in that order, are reads of two log prefixes, in that order. */
  lemma StatusReadsArePrefixes(log: seq<QueueEntry>, c: QueueCluster, acts: seq<Action>, more: seq<Action>, i: nat)
    requires Started(c) && i < |c.nodes| && After(log, c, acts).Some?
    requires var mid := After(log, c, acts).value; After(log, mid, more).Some? && OnlyMatching(log, mid, more)
    requires OnlyMatching(log, c, acts)
    ensures var mid := After(log, c, acts).value;
            var end := After(log, mid, more).value;
            && |mid.nodes| == |end.nodes| == |c.nodes|
            && mid.nodes[i].pos <= end.nodes[i].pos <= |log|
            && DepthsOf(Depths(mid.nodes[i].replica.state), log[..mid.nodes[i].pos])
            && DepthsOf(Depths(end.nodes[i].replica.state), log[..end.nodes[i].pos])
  {
    var mid := After(log, c, acts).value;
    StartedOk(log, c);
    RunKeepsInv(log, c, acts);
    MatchingIsReplay(log, c, acts);
    MatchingIsReplay(log, mid, more);
    DepthsAt(log, mid.nodes[i]);
    DepthsAt(log, After(log, mid, more).value.nodes[i]);
  }

  lemma DepthsAt(log: seq<QueueEntry>, n: QueueNode)
    requires n.pos <= |log| && n.replica == Replay(log[..n.pos])
    ensures DepthsOf(Depths(n.replica.state), log[..n.pos])
  {
    forall q
      ensures q in Depths(n.replica.state) <==> Published(log[..n.pos], q) != []
      ensures q in Depths(n.replica.state) ==>
                Depths(n.replica.state)[q] == |Published(log[..n.pos], q)| - Popped(log[..n.pos], q)
    {
      StateIsHistory(log[..n.pos], q);
    }
  }

  // What the steps achieve.

  /** A batch brings a replica that has caught up with its data to the replay of the longer prefix, and touches nothing else. */
  lemma BatchAdvances(log: seq<QueueEntry>, c: QueueCluster, i: nat, count: nat)
    requires Inv(log, c) && i < |c.nodes| && c.nodes[i].pos == c.nodes[i].seen && c.nodes[i].pos + count <= |log|
    ensures var upto := c.nodes[i].pos + count;
            Next(log, c, ApplyBatch(i, count)) == Some(c.(nodes := c.nodes[i := Node(Replay(log[..upto]), upto, upto)]))
  {
    var n := c.nodes[i];
    assert NodeOk(log, n);
    assert n.replica == Replay(log[..n.pos]);
    ReplayFrom(log, n.pos, n.pos + count);
  }

  lemma ThreeSteps(log: seq<QueueEntry>, c: QueueCluster, a1: Action, a2: Action, a3: Action)
    requires Next(log, c, a1).Some? && Next(log, Next(log, c, a1).value, a2).Some?
    ensures After(log, c, [a1, a2, a3]) == Next(log, Next(log, Next(log, c, a1).value, a2).value, a3)
  {
    hide Next;
    assert [a1, a2, a3][1..] == [a2, a3] && [a2, a3][1..] == [a3] && [a3][1..] == [];
    var c2 := Next(log, Next(log, c, a1).value, a2).value;
    assert After(log, c2, [a3]) == if Next(log, c2, a3).None? then None else After(log, Next(log, c2, a3).value, []);
    assert Next(log, c2, a3).Some? ==> After(log, Next(log, c2, a3).value, []) == Some(Next(log, c2, a3).value);
  }

  /**
    A replica that lags can always be brought level by a snapshot of one ahead of it:
    builder, build and install go through, and leave it equal to the other in everything.
   */
  lemma SnapshotCatchesUp(log: seq<QueueEntry>, c: QueueCluster, i: nat, j: nat, id: string)
    requires Inv(log, c) && i < |c.nodes| && j < |c.nodes| && c.nodes[i].pos < c.nodes[j].pos
    ensures var after := After(log, c, [OpenBuilder(j, id), Build(|c.builders|), Install(i, |c.snaps|)]);
            after.Some? && after.value.nodes == c.nodes[i := c.nodes[j]]
  {
    var n := c.nodes[j];
    assert NodeOk(log, n);
    var meta := SnapshotMeta(n.replica.lastApplied, n.replica.lastMembership, id);
    var c1 := c.(builders := c.builders + [Builder(j, meta, n.pos)]);
    var c2 := c1.(snaps := c.snaps + [Snap(n.replica.state, meta, n.pos, n.seen)]);
    assert Next(log, c, OpenBuilder(j, id)) == Some(c1);
    assert c1.builders[|c.builders|] == Builder(j, meta, n.pos);
    assert Next(log, c1, Build(|c.builders|)) == Some(c2);
    assert c2.snaps[|c.snaps|] == Snap(n.replica.state, meta, n.pos, n.seen);
    ThreeSteps(log, c, OpenBuilder(j, id), Build(|c.builders|), Install(i, |c.snaps|));
    hide After, Inv, NodeOk;
  }

  /** The builder race: what is applied between opening and building is in the data but not in the meta. */
  lemma RacedSnapshot(log: seq<QueueEntry>, c: QueueCluster, j: nat, id: string, count: nat)
    requires Inv(log, c) && j < |c.nodes| && c.nodes[j].replica == Replay(log[..c.nodes[j].pos]) && c.nodes[j].seen == c.nodes[j].pos
    requires c.nodes[j].pos + count <= |log|
    ensures var (n, upto) := (c.nodes[j], c.nodes[j].pos + count);
            var after := After(log, c, [OpenBuilder(j, id), ApplyBatch(j, count), Build(|c.builders|)]);
            && after.Some? && after.value.nodes == c.nodes[j := Node(Replay(log[..upto]), upto, upto)]
            && after.value.snaps == c.snaps + [Snap(Replay(log[..upto]).state,
                                                    SnapshotMeta(n.replica.lastApplied, n.replica.lastMembership, id),
                                                    n.pos, upto)]
  {
    var n, upto := c.nodes[j], c.nodes[j].pos + count;
    var meta := SnapshotMeta(n.replica.lastApplied, n.replica.lastMembership, id);
    var c1 := c.(builders := c.builders + [Builder(j, meta, n.pos)]);
    assert Next(log, c, OpenBuilder(j, id)) == Some(c1);
    NextKeepsInv(log, c, OpenBuilder(j, id));
    BatchAdvances(log, c1, j, count);
    var c2 := Next(log, c1, ApplyBatch(j, count)).value;
    assert c2.builders[|c.builders|] == Builder(j, meta, n.pos);
    ThreeSteps(log, c, OpenBuilder(j, id), ApplyBatch(j, count), Build(|c.builders|));
    hide After;
  }

  // Batches.

  function Flatten(batches: seq<seq<QueueEntry>>): seq<QueueEntry> {
    if batches == [] then [] else batches[0] + Flatten(batches[1..])
  }

  function BatchResponses(r: QueueReplica, batches: seq<seq<QueueEntry>>): seq<QueueResponse>
    decreases |batches|
  {
    if batches == [] then [] else
      Responses(r, batches[0]) + BatchResponses(Run(r, batches[0]), batches[1..])
  }

  /** However a log is cut into batches, its entries get one response each, in order, and the same ones. */
  lemma {:induction false} BatchingIsInvisible(r: QueueReplica, batches: seq<seq<QueueEntry>>)
    ensures BatchResponses(r, batches) == Responses(r, Flatten(batches))
    decreases |batches|
  {
    if batches != [] {
      BatchingIsInvisible(Run(r, batches[0]), batches[1..]);
      ResponsesAppend(r, batches[0], Flatten(batches[1..]));
    }
  }
}

/**
  The node directory's state machine on values. Upserts and membership changes
  are last-writer-wins, which makes late-built snapshots harmless here. Like the two
  stores it stands beside the queues' model rather than sharing a step with it: the
  source writes the two entry loops out separately, and each is its own reference.
 */
module NodeModel {
  import opened Wrappers
  import opened Types

  type Directory = map<u64, string>

  type NodeReplica = Replica<Directory>

  const FRESH_NODE: NodeReplica := Replica(map[], None, NO_MEMBERSHIP)

  function ApplyCommand(d: Directory, cmd: NodeCommand): Directory {
    d[cmd.id := cmd.addr]
  }

  function ApplyEntry(r: NodeReplica, e: NodeEntry): NodeReplica {
    Replica(if e.payload.Normal? then ApplyCommand(r.state, e.payload.data) else r.state,
            Some(e.logId),
            if e.payload.Membership? then StoredMembership(Some(e.logId), e.payload.members) else r.lastMembership)
  }

  function Run(r: NodeReplica, es: seq<NodeEntry>): NodeReplica {
    if es == [] then r else ApplyEntry(Run(r, es[..|es| - 1]), es[|es| - 1])
  }

  /** Entry `k` is the last one to write node `id`. */
  ghost predicate LastUpsert(es: seq<NodeEntry>, id: u64, k: int) {
    && 0 <= k < |es| && Upserts(es[k], id)
    && forall j | k < j < |es| :: !Upserts(es[j], id)
  }

  predicate Upserts(e: NodeEntry, id: u64) {
    e.payload.Normal? && e.payload.data.id == id
  }

  /** Each node's address is the one last written to the log, or the one it started with. */
  lemma {:induction false} DirectoryIsLastWrite(r: NodeReplica, es: seq<NodeEntry>, id: u64)
    ensures forall k | LastUpsert(es, id, k) ::
              id in Run(r, es).state && Run(r, es).state[id] == es[k].payload.data.addr
    ensures (forall k | 0 <= k < |es| :: !Upserts(es[k], id)) ==>
              && (id in Run(r, es).state <==> id in r.state)
              && (id in r.state ==> Run(r, es).state[id] == r.state[id])
    ensures (exists k :: 0 <= k < |es| && Upserts(es[k], id)) ==> exists k :: LastUpsert(es, id, k)
  {
    if es != [] {
      var front, last := es[..|es| - 1], es[|es| - 1];
      DirectoryIsLastWrite(r, front, id);
      forall k | LastUpsert(es, id, k) && k < |front| ensures LastUpsert(front, id, k) {
        assert forall j | 0 <= j < |front| :: front[j] == es[j];
      }
      if Upserts(last, id) {
        assert LastUpsert(es, id, |es| - 1);
      } else {
        forall k | LastUpsert(front, id, k) ensures LastUpsert(es, id, k) {
          assert forall j | 0 <= j < |front| :: front[j] == es[j];
        }
        if k :| 0 <= k < |es| && Upserts(es[k], id) {
          assert Upserts(front[k], id);
        }
      }
    }
  }

  /** Which membership a replica ends with: the last one the entries set, or the one it had. */
  lemma {:induction false} MembershipIsLast(r: NodeReplica, es: seq<NodeEntry>)
    ensures MembershipAfter(Run(r, es).lastMembership, es, r.lastMembership)
  {
    if es != [] {
      var front, e := es[..|es| - 1], es[|es| - 1];
      MembershipIsLast(r, front);
      assert es == front + [e];
      MembershipStep(Run(r, front).lastMembership, front, r.lastMembership, e, Run(r, es).lastMembership);
      hide MembershipAfter;
    }
  }

  lemma {:induction false} RunAppend(r: NodeReplica, a: seq<NodeEntry>, b: seq<NodeEntry>)
    ensures Run(r, a + b) == Run(Run(r, a), b)
    decreases |b|
  {
    if b == [] {
      assert a + b == a;
    } else {
      RunAppend(r, a, b[..|b| - 1]);
      assert (a + b)[..|a + b| - 1] == a + b[..|b| - 1];
    }
  }

  lemma {:induction false} RunMeta(r: NodeReplica, r': NodeReplica, es: seq<NodeEntry>)
    requires r.lastApplied == r'.lastApplied && r.lastMembership == r'.lastMembership
    ensures Run(r, es).lastApplied == Run(r', es).lastApplied
    ensures Run(r, es).lastMembership == Run(r', es).lastMembership
  {
    if es != [] {
      RunMeta(r, r', es[..|es| - 1]);
    }
  }

  /** The snapshot of a builder opened at `r` and built once `between` was applied to the shared directory. */
  function BuiltLate(r: NodeReplica, between: seq<NodeEntry>, snapshotId: string): NodeReplica {
    Installed(Run(r, between).state, SnapshotMeta(r.lastApplied, r.lastMembership, snapshotId))
  }

  /** Applying a run of entries to its own outcome changes nothing. */
  lemma RunTwice(r: NodeReplica, r': NodeReplica, es: seq<NodeEntry>)
    requires r'.state == Run(r, es).state
    ensures Run(r', es).state == Run(r, es).state
  {
    var once, twice := Run(r, es).state, Run(r', es).state;
    forall id
      ensures id in twice <==> id in once
      ensures id in once ==> twice[id] == once[id]
    {
      DirectoryIsLastWrite(r, es, id);
      DirectoryIsLastWrite(r', es, id);
      if exists k :: 0 <= k < |es| && Upserts(es[k], id) {
        var k :| LastUpsert(es, id, k);
      }
    }
  }

  /** A snapshot newer than its meta, installed and replayed from its meta, always equals the full replay. */
  lemma LateSnapshotsHeal(r: NodeReplica, between: seq<NodeEntry>, later: seq<NodeEntry>, snapshotId: string)
    ensures Run(BuiltLate(r, between, snapshotId), between + later) == Run(r, between + later)
  {
    var late := BuiltLate(r, between, snapshotId);
    RunTwice(r, late, between);
    RunMeta(r, late, between);
    RunAppend(late, between, later);
    RunAppend(r, between, later);
  }
}

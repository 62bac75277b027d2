/**
  The node directory's state machine as objects, shaped like the queue's: a
  shared directory, a store around it, and builders that share the directory.
 */
module NodeStateMachine {
  import opened Wrappers
  import opened Types
  import opened NodeModel

  class NodeDirectory {
    var nodes: map<u64, string>

    constructor ()
      ensures nodes == map[]
    {
      nodes := map[];
    }

    method Apply(cmd: NodeCommand) returns (response: NodeResponse)
      modifies this
      ensures nodes == ApplyCommand(old(nodes), cmd)
    {
      nodes := nodes[cmd.id := cmd.addr];
      response := NodeResponse;
    }
  }

  // A directory is a `BTreeMap`: its document is determined by the directory, so the data is the map itself.
  datatype StoredSnapshot = StoredSnapshot(meta: SnapshotMeta, data: map<u64, string>)

  class NodeStateMachineStore {
    const state: NodeDirectory
    var lastApplied: Option<LogId>
    var lastMembership: StoredMembership
    var snapshot: Option<StoredSnapshot>

    ghost function Value(): NodeReplica
      reads this, state
    {
      Replica(state.nodes, lastApplied, lastMembership)
    }

    constructor (state: NodeDirectory)
      ensures this.state == state && snapshot == None
      ensures Value() == Replica(state.nodes, None, NO_MEMBERSHIP)
    {
      this.state := state;
      lastApplied, lastMembership, snapshot := None, NO_MEMBERSHIP, None;
    }

    constructor Sharing(state: NodeDirectory, lastApplied: Option<LogId>, lastMembership: StoredMembership)
      ensures this.state == state && snapshot == None
      ensures this.lastApplied == lastApplied && this.lastMembership == lastMembership
    {
      this.state := state;
      this.lastApplied, this.lastMembership, snapshot := lastApplied, lastMembership, None;
    }

    method Apply(entries: seq<NodeEntry>) returns (responses: seq<NodeResponse>)
      modifies this`lastApplied, this`lastMembership, state
      ensures Value() == Run(old(Value()), entries)
      ensures MembershipAfter(lastMembership, entries, old(lastMembership))
      ensures |responses| == |entries|
    {
      responses := [];
      for i := 0 to |entries|
        invariant Value() == Run(old(Value()), entries[..i])
        invariant |responses| == i
      {
        assert entries[..i + 1][..i] == entries[..i];
        var entry := entries[i];
        lastApplied := Some(entry.logId);
        var response;
        match entry.payload {
          case Blank =>
            response := NodeResponse;
          case Normal(cmd) =>
            response := state.Apply(cmd);
          case Membership(members) =>
            lastMembership := StoredMembership(Some(entry.logId), members);
            response := NodeResponse;
        }
        responses := responses + [response];
      }
      assert entries[..|entries|] == entries;
      MembershipIsLast(old(Value()), entries);
    }

    method GetSnapshotBuilder() returns (builder: NodeStateMachineStore)
      ensures fresh(builder) && builder.state == state && builder.snapshot == None
      ensures builder.lastApplied == lastApplied && builder.lastMembership == lastMembership
    {
      builder := new NodeStateMachineStore.Sharing(state, lastApplied, lastMembership);
    }

    method BuildSnapshot(snapshotId: string) returns (built: StoredSnapshot)
      modifies this`snapshot
      ensures snapshot == Some(built)
      ensures built == StoredSnapshot(SnapshotMeta(lastApplied, lastMembership, snapshotId), state.nodes)
    {
      built := StoredSnapshot(SnapshotMeta(lastApplied, lastMembership, snapshotId), state.nodes);
      snapshot := Some(built);
    }

    method InstallSnapshot(meta: SnapshotMeta, data: map<u64, string>)
      modifies this, state
      ensures Value() == Installed(data, meta)
      ensures snapshot == Some(StoredSnapshot(meta, data))
    {
      state.nodes := data;
      lastApplied, lastMembership := meta.lastLogId, meta.lastMembership;
      snapshot := Some(StoredSnapshot(meta, data));
    }
  }

  /** The same race as for queues, on the objects: here the target always ends where the source is. */
  method SnapshotRace(source: NodeStateMachineStore, target: NodeStateMachineStore,
                      between: seq<NodeEntry>, later: seq<NodeEntry>, snapshotId: string)
    requires source != target && source.state != target.state
    modifies source, source.state, target, target.state
    ensures source.Value() == target.Value() == Run(old(source.Value()), between + later)
  {
    var builder := source.GetSnapshotBuilder();
    var _ := source.Apply(between);
    var built := builder.BuildSnapshot(snapshotId);
    target.InstallSnapshot(built.meta, built.data);
    LateSnapshotsHeal(old(source.Value()), between, later, snapshotId);
    RunAppend(old(source.Value()), between, later);
    var _ := source.Apply(later);
    var _ := target.Apply(between + later);
  }
}

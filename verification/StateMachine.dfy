/**
  The queue group's state machine as objects: a `QueueState` shared between a
  store, its snapshot builders and the status readers, and the store around it.
 */
module StateMachine {
  import opened Wrappers
  import opened Types
  import opened QueueModel
  import opened SnapshotCodec
  import opened Snapshots

  class QueueState {
    var queues: map<string, seq<Message>>
    var nextOffset: map<string, u64>

    ghost function Value(): Queues
      reads this
    {
      Queues(queues, nextOffset)
    }

    constructor ()
      ensures Value() == NO_QUEUES
    {
      queues, nextOffset := map[], map[];
    }

    function Depths(): (d: map<string, nat>)
      reads this
      ensures d == QueueModel.Depths(Value())
    {
      map q | q in queues :: |queues[q]|
    }

    method Apply(req: QueueRequest) returns (response: QueueResponse)
      modifies this
      ensures Value() == ApplyRequest(old(Value()), req)
      ensures response == RequestResponse(old(Value()), req)
    {
      match req
      case Publish(queue, payload) =>
        if queue !in nextOffset {
          nextOffset := nextOffset[queue := 0];
        }
        var offset := nextOffset[queue];
        nextOffset := nextOffset[queue := Bump(offset)];
        if queue !in queues {
          queues := queues[queue := []];
        }
        queues := queues[queue := queues[queue] + [Message(offset, payload)]];
        response := QueueResponse(Some(offset), None);
      case Pop(queue) =>
        if queue in queues && queues[queue] != [] {
          var head := queues[queue][0];
          queues := queues[queue := queues[queue][1..]];
          response := QueueResponse(None, Some(head));
        } else {
          response := QueueResponse(None, None);
        }
    }
  }

  datatype StoredSnapshot = StoredSnapshot(meta: SnapshotMeta, data: SnapshotPayload)

  class StateMachineStore {
    const state: QueueState
    var lastApplied: Option<LogId>
    var lastMembership: StoredMembership
    var snapshot: Option<StoredSnapshot>

    ghost function Value(): QueueReplica
      reads this, state
    {
      Replica(state.Value(), lastApplied, lastMembership)
    }

    constructor (state: QueueState)
      ensures this.state == state && snapshot == None
      ensures Value() == Replica(state.Value(), None, NO_MEMBERSHIP)
    {
      this.state := state;
      lastApplied, lastMembership, snapshot := None, NO_MEMBERSHIP, None;
    }

    /** The struct literal of `get_snapshot_builder`. */
    constructor Sharing(state: QueueState, lastApplied: Option<LogId>, lastMembership: StoredMembership)
      ensures this.state == state && snapshot == None
      ensures this.lastApplied == lastApplied && this.lastMembership == lastMembership
    {
      this.state := state;
      this.lastApplied, this.lastMembership, snapshot := lastApplied, lastMembership, None;
    }

    /** One response per entry, in order; the batch leaves what running its entries one by one leaves. */
    method Apply(entries: seq<QueueEntry>) returns (responses: seq<QueueResponse>)
      modifies this`lastApplied, this`lastMembership, state
      ensures Value() == Run(old(Value()), entries)
      ensures MembershipAfter(lastMembership, entries, old(lastMembership))
      ensures responses == Responses(old(Value()), entries)
    {
      responses := [];
      for i := 0 to |entries|
        invariant Value() == Run(old(Value()), entries[..i])
        invariant responses == Responses(old(Value()), entries[..i])
      {
        RunNext(old(Value()), entries, i);
        var entry := entries[i];
        lastApplied := Some(entry.logId);
        var response;
        match entry.payload {
          case Blank =>
            response := NO_RESPONSE;
          case Normal(req) =>
            response := state.Apply(req);
          case Membership(members) =>
            lastMembership := StoredMembership(Some(entry.logId), members);
            response := NO_RESPONSE;
        }
        responses := responses + [response];
      }
      assert entries[..|entries|] == entries;
      MembershipIsLast(old(Value()), entries);
    }

    /** The builder shares the live state but keeps its own copy of what was applied so far. */
    method GetSnapshotBuilder() returns (builder: StateMachineStore)
      ensures fresh(builder) && builder.state == state && builder.snapshot == None
      ensures builder.lastApplied == lastApplied && builder.lastMembership == lastMembership
    {
      builder := new StateMachineStore.Sharing(state, lastApplied, lastMembership);
    }

    /** The data is the shared state at build time; the meta is this object's. Only `snapshot` changes. */
    method BuildSnapshot(snapshotId: string) returns (built: StoredSnapshot)
      modifies this`snapshot
      ensures snapshot == Some(built)
      ensures built.meta == SnapshotMeta(lastApplied, lastMembership, snapshotId)
      ensures Encodes(built.data, state.Value())
    {
      var queues := Members(state.queues);
      var nextOffset := Members(state.nextOffset);
      built := StoredSnapshot(SnapshotMeta(lastApplied, lastMembership, snapshotId),
                              SnapshotPayload(queues, nextOffset));
      snapshot := Some(built);
    }

    method InstallSnapshot(meta: SnapshotMeta, data: SnapshotPayload)
      modifies this, state
      ensures Value() == Installed(Decode(data), meta)
      ensures snapshot == Some(StoredSnapshot(meta, data))
    {
      var decoded := Decode(data);
      state.queues, state.nextOffset := decoded.queues, decoded.nextOffset;
      lastApplied, lastMembership := meta.lastLogId, meta.lastMembership;
      snapshot := Some(StoredSnapshot(meta, data));
    }

    function GetCurrentSnapshot(): Option<StoredSnapshot>
      reads this
    {
      snapshot
    }
  }

  /**
    The race the shared state allows, on the objects themselves: `source` opens a
    builder, applies `between`, and only then builds; `target` installs the result
    and catches up from the snapshot's meta. It ends where `source` is exactly
    when applying `between` again would change nothing.
   */
  method SnapshotRace(source: StateMachineStore, target: StateMachineStore, between: seq<QueueEntry>, snapshotId: string)
    requires source != target && source.state != target.state
    requires |between| < U64
    modifies source, source.state, target, target.state
    ensures source.Value() == Run(old(source.Value()), between)
    ensures target.Value() == source.Value() <==> NothingLeftToDo(source.state.Value(), between)
    ensures source.snapshot == old(source.snapshot)
  {
    var builder := source.GetSnapshotBuilder();
    var _ := source.Apply(between);
    var built := builder.BuildSnapshot(snapshotId);
    RoundTrip(built.data, source.state.Value());
    target.InstallSnapshot(built.meta, built.data);
    HonestIff(old(source.Value()), between, snapshotId);
    var _ := target.Apply(between);
  }
}

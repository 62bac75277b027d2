/**
  The values that travel through the Raft log: log ids, entries, cluster
  membership, and the commands and responses of the two Raft groups.
 */
module Types {
  import opened Wrappers

  const U64: nat := 0x1_0000_0000_0000_0000

  /** Rust's `u64`. */
  type u64 = n: nat | n < U64

  newtype byte = b: int | 0 <= b < 256
  type Bytes = seq<byte>

  /** `n + 1` on a `u64`, wrapping as an optimised build does. */
  function Bump(n: u64): u64 {
    if n + 1 < U64 then n + 1 else 0
  }

  datatype LeaderId = LeaderId(term: u64, nodeId: u64)

  datatype LogId = LogId(leader: LeaderId, index: u64)

  /** Log ids are ordered by leader (term, then node), then index. */
  predicate LeaderLe(a: LeaderId, b: LeaderId) {
    a.term < b.term || (a.term == b.term && a.nodeId <= b.nodeId)
  }

  predicate LogIdLe(a: LogId, b: LogId) {
    if a.leader == b.leader then a.index <= b.index else LeaderLe(a.leader, b.leader)
  }

  /** `None` is below every id, as `Option`'s derived order has it. */
  predicate OptLe(a: Option<LogId>, b: Option<LogId>) {
    a.None? || (b.Some? && LogIdLe(a.value, b.value))
  }

  datatype MemberSet = MemberSet(configs: seq<set<u64>>, nodes: map<u64, string>)

  datatype StoredMembership = StoredMembership(logId: Option<LogId>, members: MemberSet)

  const NO_MEMBERSHIP := StoredMembership(None, MemberSet([], map[]))

  datatype EntryPayload<+D> = Blank | Normal(data: D) | Membership(members: MemberSet)

  datatype Entry<+D> = Entry(logId: LogId, payload: EntryPayload<D>)

  datatype SnapshotMeta = SnapshotMeta(lastLogId: Option<LogId>, lastMembership: StoredMembership, snapshotId: string)

  /** One replica: its state machine's data and how far the log reaches into it. */
  datatype Replica<+S> = Replica(state: S, lastApplied: Option<LogId>, lastMembership: StoredMembership)

  /** The replica that installing `data` under `meta` leaves. */
  function Installed<S>(data: S, meta: SnapshotMeta): Replica<S> {
    Replica(data, meta.lastLogId, meta.lastMembership)
  }

  /** Entry `k` is the last of `es` to change the membership. */
  ghost predicate LastChange(es: seq<Entry>, k: int) {
    && 0 <= k < |es| && es[k].payload.Membership?
    && forall j | k < j < |es| :: !es[j].payload.Membership?
  }

  /** `m` is what the last membership entry of `es` says, stamped with its id, or `before` where there is none. */
  ghost predicate MembershipAfter(m: StoredMembership, es: seq<Entry>, before: StoredMembership) {
    && (forall k | LastChange(es, k) :: m == StoredMembership(Some(es[k].logId), es[k].payload.members))
    && ((exists k :: 0 <= k < |es| && es[k].payload.Membership?) ==> exists k :: LastChange(es, k))
    && ((forall k | 0 <= k < |es| :: !es[k].payload.Membership?) ==> m == before)
  }

  /** One more entry: it sets the membership if it is a membership entry, and else leaves it. */
  lemma MembershipStep<D>(m: StoredMembership, es: seq<Entry<D>>, before: StoredMembership, e: Entry<D>, next: StoredMembership)
    requires MembershipAfter(m, es, before)
    requires next == if e.payload.Membership? then StoredMembership(Some(e.logId), e.payload.members) else m
    ensures MembershipAfter(next, es + [e], before)
  {
    var all := es + [e];
    if e.payload.Membership? {
      assert LastChange(all, |es|);
    } else {
      forall k | LastChange(all, k) ensures LastChange(es, k) {
        assert forall j | 0 <= j < |es| :: all[j] == es[j];
      }
      forall k | LastChange(es, k) ensures LastChange(all, k) {
      }
      if k :| 0 <= k < |all| && all[k].payload.Membership? {
        assert es[k].payload.Membership?;
      }
      if forall k | 0 <= k < |all| :: !all[k].payload.Membership? {
        forall k | 0 <= k < |es| ensures !es[k].payload.Membership? {
          assert all[k] == es[k];
        }
      }
    }
  }

  // The "spam" queue's group.

  datatype Message = Message(offset: u64, payload: Bytes)

  datatype QueueRequest = Publish(queue: string, payload: Bytes) | Pop(queue: string)

  datatype QueueResponse = QueueResponse(publishedOffset: Option<u64>, popped: Option<Message>)

  const NO_RESPONSE := QueueResponse(None, None)

  type QueueEntry = Entry<QueueRequest>

  // The "nodes" directory group.

  datatype NodeCommand = UpsertNode(id: u64, addr: string)

  datatype NodeResponse = NodeResponse

  type NodeEntry = Entry<NodeCommand>
}

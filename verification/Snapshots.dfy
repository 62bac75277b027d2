/**
  What a snapshot is worth when entries were applied between opening its builder
  and building it: the data is newer than the meta.
 */
module Snapshots {
  import opened Wrappers
  import opened Types
  import opened QueueModel
  import opened QueueHistory

  /** The snapshot of a builder opened at `r` and built once `between` was applied to the shared state. */
  function BuiltLate(r: QueueReplica, between: seq<QueueEntry>, snapshotId: string): QueueReplica {
    Installed(Run(r, between).state, SnapshotMeta(r.lastApplied, r.lastMembership, snapshotId))
  }

  predicate Idle(s: Queues, e: QueueEntry) {
    e.payload.Normal? ==> e.payload.data.Pop? && Contents(s, e.payload.data.queue) == []
  }

  /** `es` publishes nothing, and every queue it pops is empty or absent in `s`. */
  ghost predicate NothingLeftToDo(s: Queues, es: seq<QueueEntry>) {
    forall i | 0 <= i < |es| :: Idle(s, es[i])
  }

  lemma {:induction false} IdleRun(r: QueueReplica, es: seq<QueueEntry>)
    requires NothingLeftToDo(r.state, es)
    ensures Run(r, es).state == r.state
  {
    if es != [] {
      IdleRun(r, es[..|es| - 1]);
      assert Idle(r.state, es[|es| - 1]);
    }
  }

  /** Membership and the applied id do not depend on the state the entries start from. */
  lemma {:induction false} RunMeta(r: QueueReplica, s: Queues, es: seq<QueueEntry>)
    ensures Run(r.(state := s), es).lastApplied == Run(r, es).lastApplied
    ensures Run(r.(state := s), es).lastMembership == Run(r, es).lastMembership
  {
    if es != [] {
      RunMeta(r, s, es[..|es| - 1]);
    }
  }

  function Publishing(es: seq<QueueEntry>, q: string): nat {
    if es == [] then 0 else
      Publishing(es[..|es| - 1], q) + (if Publishes(es[|es| - 1], q) then 1 else 0)
  }

  function Popping(es: seq<QueueEntry>, q: string): nat {
    if es == [] then 0 else
      Popping(es[..|es| - 1], q) + (if Pops(es[|es| - 1], q) then 1 else 0)
  }

  lemma {:induction false} CountsAt(es: seq<QueueEntry>, q: string, i: nat)
    requires i < |es|
    ensures Publishes(es[i], q) ==> Publishing(es, q) >= 1
    ensures Pops(es[i], q) ==> Popping(es, q) >= 1
  {
    if i < |es| - 1 {
      CountsAt(es[..|es| - 1], q, i);
    }
  }

  /** From any state: the counter moves by the publishes, and without publishes the queue only shrinks. */
  lemma {:induction false} RunCounts(r: QueueReplica, es: seq<QueueEntry>, q: string)
    ensures Publishing(es, q) <= |es|
    ensures Offset(Run(r, es).state, q) == (Offset(r.state, q) + Publishing(es, q)) % U64
    ensures Publishing(es, q) == 0 ==>
              var left := |Contents(r.state, q)| - Popping(es, q);
              |Contents(Run(r, es).state, q)| == if left < 0 then 0 else left
  {
    if es != [] {
      var front, e := es[..|es| - 1], es[|es| - 1];
      RunCounts(r, front, q);
      BumpIsMod(Offset(r.state, q) + Publishing(front, q));
      if e.payload.Normal? {
        ApplyView(Run(r, front).state, e.payload.data, q);
      }
    }
  }

  /**
    Installing a late-built snapshot and replaying from its meta gives the full
    replay if and only if applying `between` once more to its outcome does nothing.
    (Log indexes are 64-bit, so `between` is shorter than 2^64.)
   */
  lemma HonestIff(r: QueueReplica, between: seq<QueueEntry>, snapshotId: string)
    requires |between| < U64
    ensures Run(BuiltLate(r, between, snapshotId), between) == Run(r, between)
            <==> NothingLeftToDo(Run(r, between).state, between)
  {
    var late, full := BuiltLate(r, between, snapshotId), Run(r, between);
    RunMeta(r, full.state, between);
    if NothingLeftToDo(full.state, between) {
      IdleRun(late, between);
    }
    if Run(late, between) == full {
      forall i | 0 <= i < |between| ensures Idle(full.state, between[i]) {
        if between[i].payload.Normal? {
          var q := between[i].payload.data.queue;
          RunCounts(late, between, q);
          CountsAt(between, q, i);
        }
      }
    }
  }

  /** The same condition decides whether the snapshot serves every later suffix. */
  lemma HonestForSuffixesIff(r: QueueReplica, between: seq<QueueEntry>, snapshotId: string)
    requires |between| < U64
    ensures (forall later :: Run(BuiltLate(r, between, snapshotId), between + later) == Run(r, between + later))
            <==> NothingLeftToDo(Run(r, between).state, between)
  {
    var late, full := BuiltLate(r, between, snapshotId), Run(r, between);
    HonestIff(r, between, snapshotId);
    if NothingLeftToDo(full.state, between) {
      forall later ensures Run(late, between + later) == Run(r, between + later) {
        RunAppend(late, between, later);
        RunAppend(r, between, later);
      }
    } else {
      assert between + [] == between;
    }
  }

  /** A publish that slips in between is the smallest failure: it is stored twice. */
  lemma LatePublishIsDoubled(q: string, payload: Bytes, id: LogId, snapshotId: string)
    ensures var between := [Entry(id, Normal(QueueRequest.Publish(q, payload)))];
            && Contents(Run(FRESH, between).state, q) == [Message(0, payload)]
            && Contents(Run(BuiltLate(FRESH, between, snapshotId), between).state, q)
               == [Message(0, payload), Message(1, payload)]
  {
    var e: QueueEntry := Entry(id, Normal(QueueRequest.Publish(q, payload)));
    RunSnoc(FRESH, [], e);
    RunSnoc(BuiltLate(FRESH, [e], snapshotId), [], e);
    assert [] + [e] == [e];
  }
}

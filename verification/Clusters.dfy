/** What clusters of replicas of either group are made of. */
module Clusters {
  import opened Wrappers
  import opened Types

  /** `pos` entries count as applied; the data already reflects the first `seen`. */
  datatype Node<+S> = Node(replica: Replica<S>, pos: nat, seen: nat)

  datatype Builder = Builder(node: nat, meta: SnapshotMeta, pos: nat)

  datatype Snap<+S> = Snap(data: S, meta: SnapshotMeta, pos: nat, seen: nat)

  datatype Cluster<+S> = Cluster(nodes: seq<Node<S>>, builders: seq<Builder>, snaps: seq<Snap<S>>)

  datatype Action =
    | ApplyBatch(node: nat, count: nat)
    | OpenBuilder(node: nat, snapshotId: string)
    | Build(builder: nat)
    | Install(node: nat, snap: nat)

  function Max(a: nat, b: nat): nat {
    if a < b then b else a
  }

  /** Everyone just started. */
  ghost predicate StartedAs<S>(c: Cluster<S>, start: Replica<S>) {
    && c.builders == [] && c.snaps == []
    && forall i | 0 <= i < |c.nodes| :: c.nodes[i] == Node(start, 0, 0)
  }
}

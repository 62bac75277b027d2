/**
  Publishing through any number of forward hops: each node proposes the request,
  or passes it to the node it takes for the leader and hands back its answer.
 */
module Publish {
  import opened Wrappers
  import opened Types
  import opened QueueModel
  import opened QueueHistory

  datatype Status = Unavailable | Internal

  /** What `client_write` came to at one node. `Committed` names the log index of the proposal. */
  datatype WriteResult = Committed(index: nat) | ForwardToLeader(leader: Option<u64>) | Failed

  /** One node on the way: its write, its peers, and what dialing and calling the next node came to, if asked to. */
  datatype Hop = Hop(write: WriteResult, peers: map<u64, string>, dialed: Result<(), Status>, returned: Result<(), Status>)

  /** The response that the leader's state machine gave to entry `k` of the log. */
  function ResponseTo(log: seq<QueueEntry>, k: nat): QueueResponse {
    if k < |log| then Responses(FRESH, log)[k] else NO_RESPONSE
  }

  /** `propose` at the first of `hops`; an empty list is a node that never answers. */
  function Propose(log: seq<QueueEntry>, hops: seq<Hop>, req: QueueRequest): Result<QueueResponse, Status>
    decreases |hops|, 1
  {
    if hops == [] then Err(Unavailable) else
      match hops[0].write
      case Committed(k) => Ok(ResponseTo(log, k))
      case ForwardToLeader(leader) =>
        if leader.None? then Err(Unavailable)
        else if leader.value !in hops[0].peers then Err(Internal)
        else Forward(log, hops, req)
      case Failed => Err(Internal)
  }

  function Forward(log: seq<QueueEntry>, hops: seq<Hop>, req: QueueRequest): Result<QueueResponse, Status>
    requires hops != []
    decreases |hops|, 0
  {
    var _ :- hops[0].dialed;
    match req
    case Publish(queue, payload) =>
      var offset :- PublishAt(log, hops[1..], queue, payload);
      var _ :- hops[0].returned;
      Ok(QueueResponse(Some(offset), None))
    case Pop(_) => Err(Unavailable)
  }

  /** The `publish` call at the first of `hops`: a missing offset would be reported as 0. */
  function PublishAt(log: seq<QueueEntry>, hops: seq<Hop>, queue: string, payload: Bytes): Result<u64, Status>
    decreases |hops|, 2
  {
    var resp :- Propose(log, hops, QueueRequest.Publish(queue, payload));
    Ok(if resp.publishedOffset.Some? then resp.publishedOffset.value else 0)
  }

  /** A node that reports a committed write committed this very request. */
  ghost predicate Truthful(log: seq<QueueEntry>, hops: seq<Hop>, req: QueueRequest) {
    forall i | 0 <= i < |hops| && hops[i].write.Committed? ::
      hops[i].write.index < |log| && log[hops[i].write.index].payload == Normal(req)
  }

  /** Where the chain of hops committed, if it did. */
  function CommittedAt(hops: seq<Hop>): Option<nat>
    decreases |hops|
  {
    if hops == [] then None
    else if hops[0].write.Committed? then Some(hops[0].write.index)
    else CommittedAt(hops[1..])
  }

  /** An answered proposal of a publish carries the state machine's own offset; zero never stands in for a missing one. */
  lemma {:induction false} AnswerIsTheLeaders(log: seq<QueueEntry>, hops: seq<Hop>, queue: string, payload: Bytes)
    requires var req := QueueRequest.Publish(queue, payload);
             Truthful(log, hops, req) && Propose(log, hops, req).Ok?
    ensures var k := CommittedAt(hops);
            && k.Some? && k.value < |log|
            && log[k.value].payload == Normal(QueueRequest.Publish(queue, payload))
            && Propose(log, hops, QueueRequest.Publish(queue, payload)) == Ok(Responses(FRESH, log)[k.value])
            && Responses(FRESH, log)[k.value].publishedOffset.Some?
    decreases |hops|
  {
    var req := QueueRequest.Publish(queue, payload);
    if hops[0].write.ForwardToLeader? {
      assert Forward(log, hops, req).Ok?;
      assert PublishAt(log, hops[1..], queue, payload).Ok?;
      assert Propose(log, hops[1..], req).Ok?;
      AnswerIsTheLeaders(log, hops[1..], queue, payload);
    }
    var k := CommittedAt(hops).value;
    ResponseIsHistory(log, k);
    assert Publishes(log[k], queue);
  }

  // Exactly when a proposal is answered, and what errors there are, hop by hop.

  /** A node that knows a leader other than itself and can dial it. */
  predicate CanForward(h: Hop) {
    h.write.ForwardToLeader? && h.write.leader.Some? && h.write.leader.value in h.peers && h.dialed.Ok?
  }

  /** The publish travels through the first `k` hops and comes to hop `k`. */
  ghost predicate Reaches(hops: seq<Hop>, k: nat) {
    k < |hops| && forall j | 0 <= j < k :: CanForward(hops[j])
  }

  /** What a node that neither commits nor forwards answers. */
  function Refusal(h: Hop): Status
    requires !h.write.Committed? && !CanForward(h)
  {
    match h.write
    case Failed => Internal
    case ForwardToLeader(leader) =>
      if leader.None? then Unavailable else if leader.value !in h.peers then Internal else h.dialed.error
  }

  /** The publish comes to hop `k`, which commits it, and every answer on the way back arrives. */
  ghost predicate Succeeds(hops: seq<Hop>, k: nat) {
    Reaches(hops, k) && hops[k].write.Committed? && forall j | 0 <= j < k :: hops[j].returned.Ok?
  }

  lemma OneHop(log: seq<QueueEntry>, hops: seq<Hop>, queue: string, payload: Bytes)
    requires hops != [] && !hops[0].write.Committed?
    ensures PublishAt(log, hops, queue, payload) ==
            if !CanForward(hops[0]) then Err(Refusal(hops[0]))
            else
              var far := PublishAt(log, hops[1..], queue, payload);
              if far.Ok? && hops[0].returned.Err? then Err(hops[0].returned.error) else far
  {
    var req := QueueRequest.Publish(queue, payload);
    if CanForward(hops[0]) {
      var far := PublishAt(log, hops[1..], queue, payload);
      assert Propose(log, hops, req) == Forward(log, hops, req);
      assert far.Err? ==> Forward(log, hops, req) == Err(far.error);
      assert far.Ok? && hops[0].returned.Ok? ==> Forward(log, hops, req) == Ok(QueueResponse(Some(far.value), None));
    } else {
      assert Propose(log, hops, req) == Err(Refusal(hops[0]));
    }
  }

  lemma ReachesNext(hops: seq<Hop>, k: nat)
    requires hops != [] && CanForward(hops[0])
    ensures Reaches(hops[1..], k) <==> Reaches(hops, k + 1)
    ensures k + 1 < |hops| ==> hops[1..][k] == hops[k + 1]
  {
    if Reaches(hops, k + 1) {
      assert forall j | 0 <= j < k :: hops[1..][j] == hops[j + 1];
    }
    if Reaches(hops[1..], k) {
      assert forall j | 0 < j < k + 1 :: hops[j] == hops[1..][j - 1];
    }
  }

  lemma SucceedsNext(hops: seq<Hop>, k: nat)
    requires hops != [] && CanForward(hops[0])
    ensures Succeeds(hops, k + 1) <==> Succeeds(hops[1..], k) && hops[0].returned.Ok?
  {
    ReachesNext(hops, k);
    if Succeeds(hops, k + 1) {
      assert forall j | 0 <= j < k :: hops[1..][j] == hops[j + 1];
    }
    if Succeeds(hops[1..], k) {
      assert forall j | 0 < j < k + 1 :: hops[j] == hops[1..][j - 1];
    }
  }

  /** A publish is answered if and only if the hops lead to a node that commits it and every answer on the way back arrives. */
  lemma {:induction false} AnsweredIff(log: seq<QueueEntry>, hops: seq<Hop>, queue: string, payload: Bytes)
    ensures PublishAt(log, hops, queue, payload).Ok? <==> exists k: nat :: Succeeds(hops, k)
    decreases |hops|
  {
    if hops != [] && hops[0].write.Committed? {
      assert Succeeds(hops, 0);
    } else if hops != [] {
      OneHop(log, hops, queue, payload);
      AnsweredIff(log, hops[1..], queue, payload);
      hide PublishAt;
      if k: nat :| Succeeds(hops, k) {
        assert k > 0;
        SucceedsNext(hops, k - 1);
      }
      if PublishAt(log, hops, queue, payload).Ok? {
        var k: nat :| Succeeds(hops[1..], k);
        SucceedsNext(hops, k);
      }
    }
  }

  /** A publish that ends at a node which neither commits nor forwards fails with that node's refusal. */
  lemma {:induction false} RefusedWith(log: seq<QueueEntry>, hops: seq<Hop>, queue: string, payload: Bytes, k: nat)
    requires Reaches(hops, k) && !hops[k].write.Committed? && !CanForward(hops[k])
    ensures PublishAt(log, hops, queue, payload) == Err(Refusal(hops[k]))
    decreases |hops|
  {
    OneHop(log, hops, queue, payload);
    hide PublishAt;
    if k > 0 {
      ReachesNext(hops, k - 1);
      RefusedWith(log, hops[1..], queue, payload, k - 1);
    }
  }

  /** A publish that committed at hop `k` fails with the error nearest to `k` on the way back, if there is one. */
  lemma {:induction false} LostAnswerWith(log: seq<QueueEntry>, hops: seq<Hop>, queue: string, payload: Bytes, k: nat, j: nat)
    requires Reaches(hops, k) && hops[k].write.Committed?
    requires j < k && hops[j].returned.Err? && forall i | j < i < k :: hops[i].returned.Ok?
    ensures PublishAt(log, hops, queue, payload) == Err(hops[j].returned.error)
    decreases |hops|
  {
    var rest := hops[1..];
    OneHop(log, hops, queue, payload);
    ReachesNext(hops, k - 1);
    hide PublishAt;
    assert forall i | 0 <= i < k - 1 :: rest[i] == hops[i + 1];
    if j > 0 {
      LostAnswerWith(log, rest, queue, payload, k - 1, j - 1);
    } else {
      AnsweredIff(log, rest, queue, payload);
      assert Succeeds(rest, k - 1);
    }
  }

  /** Where the hops run out, some node never answered. */
  lemma {:induction false} NobodyAnswers(log: seq<QueueEntry>, hops: seq<Hop>, queue: string, payload: Bytes)
    requires forall j | 0 <= j < |hops| :: CanForward(hops[j])
    ensures PublishAt(log, hops, queue, payload) == Err(Unavailable)
    decreases |hops|
  {
    if hops != [] {
      OneHop(log, hops, queue, payload);
      NobodyAnswers(log, hops[1..], queue, payload);
    }
  }

  /** Were a committed entry's response ever without an offset, zero is what the producer would be told. */
  lemma MissingOffsetIsZero(log: seq<QueueEntry>, hops: seq<Hop>, queue: string, payload: Bytes)
    requires hops != [] && hops[0].write.Committed? && ResponseTo(log, hops[0].write.index).publishedOffset == None
    ensures PublishAt(log, hops, queue, payload) == Ok(0)
  {
  }

  /** Pops do not travel: a node commits a pop itself, and otherwise refuses it, with its own refusal or as unavailable. */
  lemma PopOutcome(log: seq<QueueEntry>, hops: seq<Hop>, queue: string)
    requires hops != []
    ensures Propose(log, hops, QueueRequest.Pop(queue)) ==
            if hops[0].write.Committed? then Ok(ResponseTo(log, hops[0].write.index))
            else if CanForward(hops[0]) then Err(Unavailable) else Err(Refusal(hops[0]))
  {
  }

  /**
    The offset a producer is told, however many hops away the leader was, is the one
    under which its payload was stored, at the end of the queue, by the entry it committed.
   */
  lemma AcknowledgedPublish(log: seq<QueueEntry>, hops: seq<Hop>, queue: string, payload: Bytes)
    requires Truthful(log, hops, QueueRequest.Publish(queue, payload))
    requires PublishAt(log, hops, queue, payload).Ok?
    ensures var offset, k := PublishAt(log, hops, queue, payload).value, CommittedAt(hops);
            && k.Some? && k.value < |log|
            && var at := |Published(log[..k.value], queue)|;
               && at < |Published(log, queue)| && Published(log, queue)[at] == Message(offset, payload)
               && var stored := Contents(Replay(log[..k.value + 1]).state, queue);
                  stored != [] && stored[|stored| - 1] == Message(offset, payload)
  {
    AnswerIsTheLeaders(log, hops, queue, payload);
    var k := CommittedAt(hops).value;
    PublishStays(log, k, queue);
    StoredAtTheEnd(log, k, queue, payload);
    hide Replay, Published, Contents, CommittedAt, Truthful;
  }

  /** The entry's response is the offset under which its payload now ends the queue. */
  lemma StoredAtTheEnd(log: seq<QueueEntry>, k: nat, queue: string, payload: Bytes)
    requires k < |log| && log[k].payload == Normal(QueueRequest.Publish(queue, payload))
    ensures var stored := Contents(Replay(log[..k + 1]).state, queue);
            && Responses(FRESH, log)[k].publishedOffset.Some?
            && stored != [] && stored[|stored| - 1] == Message(Responses(FRESH, log)[k].publishedOffset.value, payload)
  {
    RunNext(FRESH, log, k);
    ResponseAt(FRESH, log, k);
    hide Run, Responses;
    ApplyView(Run(FRESH, log[..k]).state, log[k].payload.data, queue);
  }

  /** Two publishes acknowledged to one queue, committed as different entries, are never told the same offset. */
  lemma AcknowledgedOffsetsDiffer(log: seq<QueueEntry>, a: seq<Hop>, b: seq<Hop>, queue: string, pa: Bytes, pb: Bytes)
    requires |log| <= U64
    requires Truthful(log, a, QueueRequest.Publish(queue, pa)) && PublishAt(log, a, queue, pa).Ok?
    requires Truthful(log, b, QueueRequest.Publish(queue, pb)) && PublishAt(log, b, queue, pb).Ok?
    requires CommittedAt(a) != CommittedAt(b)
    ensures PublishAt(log, a, queue, pa) != PublishAt(log, b, queue, pb)
  {
    hide PublishAt, Published, Truthful, CommittedAt;
    var i := ToldPosition(log, a, queue, pa);
    var j := ToldPosition(log, b, queue, pb);
    DifferentPositions(log, CommittedAt(a).value, CommittedAt(b).value, queue);
    DifferentPositions(log, CommittedAt(b).value, CommittedAt(a).value, queue);
    PublishedBound(log, queue);
    assert i != j && i < U64 && j < U64;
  }

  lemma ToldPosition(log: seq<QueueEntry>, hops: seq<Hop>, queue: string, payload: Bytes) returns (at: nat)
    requires Truthful(log, hops, QueueRequest.Publish(queue, payload)) && PublishAt(log, hops, queue, payload).Ok?
    ensures CommittedAt(hops).Some? && CommittedAt(hops).value < |log| && Publishes(log[CommittedAt(hops).value], queue)
    ensures at == |Published(log[..CommittedAt(hops).value], queue)| < |Published(log, queue)|
    ensures PublishAt(log, hops, queue, payload) == Ok(at % U64)
  {
    AnswerIsTheLeaders(log, hops, queue, payload);
    var k := CommittedAt(hops).value;
    at := |Published(log[..k], queue)|;
    PublishStays(log, k, queue);
  }

  lemma DifferentPositions(log: seq<QueueEntry>, i: nat, j: nat, q: string)
    requires i < |log| && j < |log| && Publishes(log[i], q)
    ensures i < j ==> |Published(log[..i], q)| < |Published(log[..j], q)|
  {
    if i < j {
      HistorySnoc(log[..i], log[i], q);
      assert log[..i] + [log[i]] + log[i + 1..j] == log[..j];
      HistoryGrows(log[..i] + [log[i]], log[i + 1..j], q);
    }
  }
}

/**
  What the queue state machine computes, on values: one request, one log entry,
  a run of entries. The classes of `StateMachine` are proved against these.
 */
module QueueModel {
  import opened Wrappers
  import opened Types

  datatype Queues = Queues(queues: map<string, seq<Message>>, nextOffset: map<string, u64>)

  type QueueReplica = Replica<Queues>

  const NO_QUEUES := Queues(map[], map[])

  /** A process that just started: empty state, nothing applied, no membership. */
  const FRESH: QueueReplica := Replica(NO_QUEUES, None, NO_MEMBERSHIP)

  function Offset(s: Queues, q: string): u64 {
    if q in s.nextOffset then s.nextOffset[q] else 0
  }

  function Contents(s: Queues, q: string): seq<Message> {
    if q in s.queues then s.queues[q] else []
  }

  function ApplyRequest(s: Queues, req: QueueRequest): Queues {
    match req
    case Publish(q, payload) =>
      Queues(s.queues[q := Contents(s, q) + [Message(Offset(s, q), payload)]],
             s.nextOffset[q := Bump(Offset(s, q))])
    case Pop(q) =>
      if Contents(s, q) == [] then s else Queues(s.queues[q := s.queues[q][1..]], s.nextOffset)
  }

  function RequestResponse(s: Queues, req: QueueRequest): QueueResponse {
    match req
    case Publish(q, _) => QueueResponse(Some(Offset(s, q)), None)
    case Pop(q) => QueueResponse(None, if Contents(s, q) == [] then None else Some(Contents(s, q)[0]))
  }

  /** One request seen from one queue: only the queue it names changes, and only as it should. */
  lemma ApplyView(s: Queues, req: QueueRequest, q: string)
    ensures Contents(ApplyRequest(s, req), q) ==
            if req.queue != q then Contents(s, q)
            else if req.Publish? then Contents(s, q) + [Message(Offset(s, q), req.payload)]
            else if Contents(s, q) == [] then [] else Contents(s, q)[1..]
    ensures Offset(ApplyRequest(s, req), q) ==
            if req.queue == q && req.Publish? then Bump(Offset(s, q)) else Offset(s, q)
    ensures q in ApplyRequest(s, req).queues <==> q in s.queues || (req.Publish? && req.queue == q)
    ensures q in ApplyRequest(s, req).nextOffset <==> q in s.nextOffset || (req.Publish? && req.queue == q)
  {
  }

  function EntryState(s: Queues, e: QueueEntry): Queues {
    if e.payload.Normal? then ApplyRequest(s, e.payload.data) else s
  }

  function ApplyEntry(r: QueueReplica, e: QueueEntry): QueueReplica {
    Replica(EntryState(r.state, e), Some(e.logId),
            if e.payload.Membership? then StoredMembership(Some(e.logId), e.payload.members) else r.lastMembership)
  }

  function EntryResponse(r: QueueReplica, e: QueueEntry): QueueResponse {
    if e.payload.Normal? then RequestResponse(r.state, e.payload.data) else NO_RESPONSE
  }

  function Run(r: QueueReplica, es: seq<QueueEntry>): QueueReplica {
    if es == [] then r else ApplyEntry(Run(r, es[..|es| - 1]), es[|es| - 1])
  }

  function Responses(r: QueueReplica, es: seq<QueueEntry>): (rs: seq<QueueResponse>)
    ensures |rs| == |es|
  {
    if es == [] then [] else
      var front := es[..|es| - 1];
      Responses(r, front) + [EntryResponse(Run(r, front), es[|es| - 1])]
  }

  /** The full replay of a log into a fresh process. */
  function Replay(log: seq<QueueEntry>): QueueReplica {
    Run(FRESH, log)
  }

  function Depths(s: Queues): map<string, nat> {
    map q | q in s.queues :: |s.queues[q]|
  }

  /** Batching does not matter: two batches are one. */
  lemma {:induction false} RunAppend(r: QueueReplica, a: seq<QueueEntry>, b: seq<QueueEntry>)
    ensures Run(r, a + b) == Run(Run(r, a), b)
    decreases |b|
  {
    if b == [] {
      assert a + b == a;
    } else {
      RunAppend(r, a, b[..|b| - 1]);
      assert (a + b)[..|a + b| - 1] == a + b[..|b| - 1];
    }
  }

  /** Which membership a replica ends with: the last one the entries set, or the one it had. */
  lemma {:induction false} MembershipIsLast(r: QueueReplica, es: seq<QueueEntry>)
    ensures MembershipAfter(Run(r, es).lastMembership, es, r.lastMembership)
  {
    if es != [] {
      var front, e := es[..|es| - 1], es[|es| - 1];
      MembershipIsLast(r, front);
      assert es == front + [e];
      MembershipStep(Run(r, front).lastMembership, front, r.lastMembership, e, Run(r, es).lastMembership);
      hide MembershipAfter;
    }
  }

  lemma {:induction false} ResponsesAppend(r: QueueReplica, a: seq<QueueEntry>, b: seq<QueueEntry>)
    ensures Responses(r, a + b) == Responses(r, a) + Responses(Run(r, a), b)
    decreases |b|
  {
    if b == [] {
      assert a + b == a;
    } else {
      var front, e := b[..|b| - 1], b[|b| - 1];
      assert a + b == (a + front) + [e];
      RunAppend(r, a, front);
      ResponsesAppend(r, a, front);
      ResponsesSnoc(r, a + front, e);
    }
  }

  lemma RunSnoc(r: QueueReplica, es: seq<QueueEntry>, e: QueueEntry)
    ensures Run(r, es + [e]) == ApplyEntry(Run(r, es), e)
  {
    assert (es + [e])[..|es + [e]| - 1] == es;
  }

  lemma ResponsesSnoc(r: QueueReplica, es: seq<QueueEntry>, e: QueueEntry)
    ensures Responses(r, es + [e]) == Responses(r, es) + [EntryResponse(Run(r, es), e)]
  {
    assert (es + [e])[..|es + [e]| - 1] == es;
  }

  /** Response `k` is the answer of the state that the first `k` entries left. */
  lemma {:induction false} ResponseAt(r: QueueReplica, es: seq<QueueEntry>, k: nat)
    requires k < |es|
    ensures Responses(r, es)[k] == EntryResponse(Run(r, es[..k]), es[k])
    decreases |es|
  {
    var front := es[..|es| - 1];
    if k < |front| {
      ResponseAt(r, front, k);
      assert front[..k] == es[..k];
    }
  }

  /** The next entry after a prefix extends the replay of that prefix by one step. */
  lemma RunNext(r: QueueReplica, log: seq<QueueEntry>, k: nat)
    requires k < |log|
    ensures Run(r, log[..k + 1]) == ApplyEntry(Run(r, log[..k]), log[k])
    ensures Responses(r, log[..k + 1]) == Responses(r, log[..k]) + [EntryResponse(Run(r, log[..k]), log[k])]
  {
    assert log[..k + 1][..k] == log[..k];
  }
}

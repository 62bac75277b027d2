/**
  What a log means, without any hash map: the messages published to a queue and
  how many of them were popped. The state machine is proved to agree with it.
 */
module QueueHistory {
  import opened Wrappers
  import opened Types
  import opened QueueModel

  predicate Publishes(e: QueueEntry, q: string) {
    e.payload.Normal? && e.payload.data.Publish? && e.payload.data.queue == q
  }

  predicate Pops(e: QueueEntry, q: string) {
    e.payload.Normal? && e.payload.data.Pop? && e.payload.data.queue == q
  }

  predicate Names(e: QueueEntry, q: string) {
    Publishes(e, q) || Pops(e, q)
  }

  /** Every message ever published to `q`, in log order, stamped with its position. */
  function Published(log: seq<QueueEntry>, q: string): seq<Message> {
    if log == [] then [] else
      var before := Published(log[..|log| - 1], q);
      var e := log[|log| - 1];
      if Publishes(e, q) then before + [Message(|before| % U64, e.payload.data.payload)] else before
  }

  /** How many pops of `q` found a message. */
  function Popped(log: seq<QueueEntry>, q: string): (n: nat)
    ensures n <= |Published(log, q)|
  {
    if log == [] then 0 else
      var front := log[..|log| - 1];
      var before := Popped(front, q);
      if Pops(log[|log| - 1], q) && before < |Published(front, q)| then before + 1 else before
  }

  lemma BumpIsMod(n: nat)
    ensures Bump(n % U64) == (n + 1) % U64
  {
  }

  /** The state holds, for each queue, the published history minus its popped prefix. */
  ghost predicate MatchesHistory(s: Queues, log: seq<QueueEntry>, q: string) {
    && (q in s.queues <==> Published(log, q) != [])
    && (q in s.nextOffset <==> Published(log, q) != [])
    && Contents(s, q) == Published(log, q)[Popped(log, q)..]
    && Offset(s, q) == |Published(log, q)| % U64
  }

  lemma {:induction false} StateIsHistory(log: seq<QueueEntry>, q: string)
    ensures MatchesHistory(Replay(log).state, log, q)
  {
    if log != [] {
      var front, e := log[..|log| - 1], log[|log| - 1];
      assert log == front + [e];
      StateIsHistory(front, q);
      StateStep(log, front, e, q);
    }
  }

  lemma StateStep(log: seq<QueueEntry>, front: seq<QueueEntry>, e: QueueEntry, q: string)
    requires log == front + [e]
    requires MatchesHistory(Replay(front).state, front, q)
    ensures MatchesHistory(Replay(log).state, log, q)
  {
    RunSnoc(FRESH, front, e);
    HistoryStep(Replay(front).state, front, e, q);
  }

  lemma HistorySnoc(log: seq<QueueEntry>, e: QueueEntry, q: string)
    ensures Published(log + [e], q) ==
            Published(log, q) + (if Publishes(e, q) then [Message(|Published(log, q)| % U64, e.payload.data.payload)] else [])
    ensures Popped(log + [e], q) ==
            Popped(log, q) + (if Pops(e, q) && Popped(log, q) < |Published(log, q)| then 1 else 0)
  {
    assert (log + [e])[..|log|] == log;
  }

  lemma HistoryStep(s: Queues, log: seq<QueueEntry>, e: QueueEntry, q: string)
    requires MatchesHistory(s, log, q)
    ensures MatchesHistory(EntryState(s, e), log + [e], q)
  {
    HistorySnoc(log, e, q);
    if e.payload.Normal? {
      RequestStep(s, log, e, q);
    }
  }

  lemma RequestStep(s: Queues, log: seq<QueueEntry>, e: QueueEntry, q: string)
    requires MatchesHistory(s, log, q) && e.payload.Normal?
    ensures MatchesHistory(ApplyRequest(s, e.payload.data), log + [e], q)
  {
    HistorySnoc(log, e, q);
    ApplyView(s, e.payload.data, q);
    var was, now := Published(log, q), Published(log + [e], q);
    if Publishes(e, q) {
      BumpIsMod(|was|);
      assert now[Popped(log, q)..] == was[Popped(log, q)..] + [now[|was|]];
    } else if Pops(e, q) && Popped(log, q) < |was| {
      assert was[Popped(log, q)..][1..] == was[Popped(log, q) + 1..];
    }
  }

  /** A publish answers its position in the history; a pop answers the oldest message left. */
  lemma ResponseIsHistory(log: seq<QueueEntry>, k: nat)
    requires k < |log|
    ensures forall q | Publishes(log[k], q) ::
              Responses(FRESH, log)[k] == QueueResponse(Some(|Published(log[..k], q)| % U64), None)
    ensures forall q | Pops(log[k], q) ::
              Responses(FRESH, log)[k] == QueueResponse(None,
                if Popped(log[..k], q) < |Published(log[..k], q)|
                then Some(Published(log[..k], q)[Popped(log[..k], q)]) else None)
    ensures (forall q :: !Names(log[k], q)) ==> Responses(FRESH, log)[k] == NO_RESPONSE
  {
    ResponseAt(FRESH, log, k);
    if log[k].payload.Normal? {
      StateIsHistory(log[..k], log[k].payload.data.queue);
      assert Names(log[k], log[k].payload.data.queue);
    }
  }

  /** Histories only grow at the end; popped counts only grow. */
  lemma {:induction false} HistoryGrows(a: seq<QueueEntry>, b: seq<QueueEntry>, q: string)
    ensures Published(a, q) <= Published(a + b, q)
    ensures Popped(a, q) <= Popped(a + b, q)
    decreases |b|
  {
    if b == [] {
      assert a + b == a;
    } else {
      HistoryGrows(a, b[..|b| - 1], q);
      assert (a + b)[..|a + b| - 1] == a + b[..|b| - 1];
    }
  }

  /** A publish is answered with the position it keeps in every longer history. */
  lemma PublishStays(log: seq<QueueEntry>, k: nat, q: string)
    requires k < |log|
    ensures Publishes(log[k], q) ==>
              var at := |Published(log[..k], q)|;
              && at < |Published(log, q)|
              && Responses(FRESH, log)[k].publishedOffset == Some(at % U64)
              && Published(log, q)[at] == Message(at % U64, log[k].payload.data.payload)
  {
    if Publishes(log[k], q) {
      ResponseIsHistory(log, k);
      HistorySnoc(log[..k], log[k], q);
      assert log[..k] + [log[k]] + log[k + 1..] == log;
      HistoryGrows(log[..k] + [log[k]], log[k + 1..], q);
    }
  }

  lemma {:induction false} OffsetIsPosition(log: seq<QueueEntry>, q: string, k: nat)
    requires k < |Published(log, q)|
    ensures Published(log, q)[k].offset == k % U64
  {
    var front := log[..|log| - 1];
    if k < |Published(front, q)| {
      OffsetIsPosition(front, q, k);
    }
  }

  lemma {:induction false} PublishedBound(log: seq<QueueEntry>, q: string)
    ensures |Published(log, q)| <= |log|
  {
    if log != [] {
      PublishedBound(log[..|log| - 1], q);
    }
  }

  /** No offset is ever handed out twice exactly as long as the 64-bit counter does not wrap. */
  lemma OffsetsUniqueIff(log: seq<QueueEntry>, q: string)
    ensures (forall i, j | 0 <= i < j < |Published(log, q)| ::
               Published(log, q)[i].offset != Published(log, q)[j].offset)
            <==> |Published(log, q)| <= U64
  {
    var h := Published(log, q);
    forall k | 0 <= k < |h| ensures h[k].offset == k % U64 {
      OffsetIsPosition(log, q, k);
    }
    if |h| > U64 {
      assert h[0].offset == h[U64].offset;
    }
  }

  /** The messages that the pops of `q` returned, in log order. */
  function PopAnswers(log: seq<QueueEntry>, q: string): seq<Message> {
    if log == [] then [] else
      var front := log[..|log| - 1];
      var answer := EntryResponse(Replay(front), log[|log| - 1]).popped;
      PopAnswers(front, q) +
      (if Pops(log[|log| - 1], q) && answer.Some? then [answer.value] else [])
  }

  /** First in, first out: pops return the history from its start, skipping and repeating nothing. */
  lemma {:induction false} PopsAreFifo(log: seq<QueueEntry>, q: string)
    ensures PopAnswers(log, q) == Published(log, q)[..Popped(log, q)]
  {
    if log != [] {
      var front := log[..|log| - 1];
      PopsAreFifo(front, q);
      StateIsHistory(front, q);
    }
  }

  // Queues do not interfere.

  /** The entries that name `q`. */
  function Only(log: seq<QueueEntry>, q: string): seq<QueueEntry> {
    if log == [] then [] else
      var e := log[|log| - 1];
      Only(log[..|log| - 1], q) + (if Names(e, q) then [e] else [])
  }

  /** The answers to the entries that name `q`. */
  function Answers(r: QueueReplica, log: seq<QueueEntry>, q: string): seq<QueueResponse> {
    if log == [] then [] else
      var front := log[..|log| - 1];
      var e := log[|log| - 1];
      Answers(r, front, q) + (if Names(e, q) then [EntryResponse(Run(r, front), e)] else [])
  }

  predicate SameQueue(a: Queues, b: Queues, q: string) {
    && (q in a.queues <==> q in b.queues)
    && (q in a.nextOffset <==> q in b.nextOffset)
    && Contents(a, q) == Contents(b, q)
    && Offset(a, q) == Offset(b, q)
  }

  /** A queue sees only the entries that name it, from any starting state. */
  lemma {:induction false} Projection(r: QueueReplica, log: seq<QueueEntry>, q: string)
    ensures SameQueue(Run(r, log).state, Run(r, Only(log, q)).state, q)
    ensures Answers(r, log, q) == Responses(r, Only(log, q))
  {
    if log != [] {
      var front := log[..|log| - 1];
      var e := log[|log| - 1];
      Projection(r, front, q);
      if Names(e, q) {
        assert Only(log, q)[..|Only(log, q)| - 1] == Only(front, q);
      } else {
        assert Only(log, q) == Only(front, q);
      }
    }
  }

  /** Adjacent requests on different queues commute, in state and in responses. */
  lemma DifferentQueuesCommute(s: Queues, a: QueueRequest, b: QueueRequest)
    requires a.queue != b.queue
    ensures ApplyRequest(ApplyRequest(s, a), b) == ApplyRequest(ApplyRequest(s, b), a)
    ensures RequestResponse(ApplyRequest(s, a), b) == RequestResponse(s, b)
    ensures RequestResponse(ApplyRequest(s, b), a) == RequestResponse(s, a)
  {
    forall q
      ensures SameQueue(ApplyRequest(ApplyRequest(s, a), b), ApplyRequest(ApplyRequest(s, b), a), q)
      ensures Contents(ApplyRequest(s, a), b.queue) == Contents(s, b.queue)
    {
      ApplyView(s, a, q);
      ApplyView(s, b, q);
      ApplyView(ApplyRequest(s, a), b, q);
      ApplyView(ApplyRequest(s, b), a, q);
    }
    SameEverywhere(ApplyRequest(ApplyRequest(s, a), b), ApplyRequest(ApplyRequest(s, b), a));
  }

  lemma SameEverywhere(a: Queues, b: Queues)
    requires forall q :: SameQueue(a, b, q)
    ensures a == b
  {
    forall q ensures q in a.queues <==> q in b.queues
             ensures q in a.nextOffset <==> q in b.nextOffset
             ensures Contents(a, q) == Contents(b, q) && Offset(a, q) == Offset(b, q)
    {
      assert SameQueue(a, b, q);
    }
    assert a.queues == b.queues;
    assert a.nextOffset == b.nextOffset;
  }
}

/**
  What the consume protocol guarantees in every reachable state: each message is in
  one place, offsets rise along each worker, and little is ever in flight.
 */
module Delivery {
  import opened Wrappers
  import opened Types
  import opened QueueModel
  import opened QueueHistory
  import opened ConsumeStream
  import opened Consume

  ghost predicate StreamsOk(ss: seq<Stream>, log: seq<QueueEntry>) {
    forall i | 0 <= i < |ss| :: Ordered(ss[i], Popped(log, ss[i].queue)) && TallyOk(ss[i])
  }

  /** A forwarding worker reads a younger stream on its own queue, all of whose messages are newer than what it sent. */
  predicate LinkOk(ss: seq<Stream>, i: nat, w: Worker)
    requires i < |ss|
  {
    w.phase.Forwarding? ==>
      && i < w.phase.to < |ss|
      && ss[w.phase.to].queue == ss[i].queue
      && ss[i].born <= ss[w.phase.to].born
      && Below(w.sent, ss[w.phase.to].born)
  }

  ghost predicate Linked(ss: seq<Stream>) {
    forall i, w | 0 <= i < |ss| && 0 <= w < |ss[i].workers| :: LinkOk(ss, i, ss[i].workers[w])
  }

  ghost predicate Inv(y: Sys) {
    |y.log| < U64 && StreamsOk(y.streams, y.log) && Linked(y.streams)
  }

  lemma PoppedLater(log: seq<QueueEntry>, e: QueueEntry, ss: seq<Stream>)
    requires StreamsOk(ss, log)
    ensures StreamsOk(ss, log + [e])
  {
    forall i | 0 <= i < |ss| ensures Ordered(ss[i], Popped(log + [e], ss[i].queue)) {
      HistorySnoc(log, e, ss[i].queue);
      OrderedLater(ss[i], Popped(log, ss[i].queue), Popped(log + [e], ss[i].queue));
    }
  }

  /** What an event leaves alone: the stream's identity, and every worker that does not start forwarding. */
  lemma LocalFrame(s: Stream, ev: Event)
    requires LocalStep(s, ev).Some?
    ensures var s' := LocalStep(s, ev).value.stream;
            && s'.queue == s.queue && s'.born == s.born && |s'.workers| == |s.workers|
            && forall w | 0 <= w < |s.workers| && s'.workers[w].phase.Forwarding? ::
                 s'.workers[w] == s.workers[w] ||
                 (ev == Redirect(w, s'.workers[w].phase.to) && s'.workers[w].sent == s.workers[w].sent)
  {
  }

  lemma ActKeeps(y: Sys, i: nat, ev: Event, log: seq<QueueEntry>)
    requires Act(y, i, ev).Some? && StreamsOk(y.streams, log)
    requires NewTo(y.streams[i], ev, Popped(log, y.streams[i].queue))
    ensures StreamsOk(Act(y, i, ev).value.streams, log)
  {
    OrderKept(y.streams[i], ev, Popped(log, y.streams[i].queue));
    TallyKept(y.streams[i], ev);
    LocalFrame(y.streams[i], ev);
    hide LocalStep;
  }

  lemma ActLinked(y: Sys, i: nat, ev: Event)
    requires Act(y, i, ev).Some? && Linked(y.streams) && !ev.Redirect?
    ensures Linked(Act(y, i, ev).value.streams)
  {
    LocalFrame(y.streams[i], ev);
    hide LocalStep;
    var ss, ss' := y.streams, Act(y, i, ev).value.streams;
    forall j, w | 0 <= j < |ss'| && 0 <= w < |ss'[j].workers| ensures LinkOk(ss', j, ss'[j].workers[w]) {
      assert LinkOk(ss, j, ss[j].workers[w]);
    }
  }

  lemma NewStreamOk(q: string, c: Consumer, log: seq<QueueEntry>)
    ensures StreamsOk([NewStream(q, c, Popped(log, q))], log)
  {
    var ws := NewStream(q, c, Popped(log, q)).workers;
    CountAll(ws, |ws|, IsBusy);
  }

  lemma AddedOk(ss: seq<Stream>, s: Stream, log: seq<QueueEntry>)
    requires StreamsOk(ss, log) && StreamsOk([s], log)
    ensures StreamsOk(ss + [s], log)
  {
    assert [s][0] == s;
  }

  lemma AddedLinked(ss: seq<Stream>, s: Stream)
    requires Linked(ss) && forall w | 0 <= w < |s.workers| :: s.workers[w].phase.Ready?
    ensures Linked(ss + [s])
  {
    var ss' := ss + [s];
    forall j, w | 0 <= j < |ss'| && 0 <= w < |ss'[j].workers| ensures LinkOk(ss', j, ss'[j].workers[w]) {
      if j < |ss| {
        assert LinkOk(ss, j, ss[j].workers[w]);
      }
    }
  }

  lemma CommitPopKeeps(y: Sys, i: nat, w: nat, id: LogId)
    requires Inv(y) && Next(y, CommitPop(i, w, id)).Some?
    ensures Inv(Next(y, CommitPop(i, w, id)).value)
  {
    var q := y.streams[i].queue;
    var ev, log := Committed(w, Answer(y.log, q, id)), y.log + [PopEntry(q, id)];
    PoppedLater(y.log, PopEntry(q, id), y.streams);
    AnswerIsNewest(y.log, q, id);
    CommittedIsNew(y, i, ev);
    hide LocalStep;
    ActKeeps(y, i, ev, log);
    ActLinked(y, i, ev);
  }

  /** The answer's offset is the number of messages popped before it. */
  lemma AnswerIsNewest(log: seq<QueueEntry>, q: string, id: LogId)
    requires |log| < U64
    ensures Answer(log, q, id).Some? ==>
              && Answer(log, q, id).value.queue == q
              && Answer(log, q, id).value.msg.offset == Popped(log, q)
              && Popped(log + [PopEntry(q, id)], q) == Popped(log, q) + 1
  {
    AnswerIsOldest(log, q, id);
    HistorySnoc(log, PopEntry(q, id), q);
    PublishedBound(log, q);
    if Answer(log, q, id).Some? {
      OffsetIsPosition(log, q, Popped(log, q));
    }
  }

  lemma CommittedIsNew(y: Sys, i: nat, ev: Event)
    requires Inv(y) && i < |y.streams| && ev.Committed? && LocalStep(y.streams[i], ev).Some?
    requires var q := y.streams[i].queue;
             ev.popped.Some? ==> ev.popped.value.queue == q && ev.popped.value.msg.offset == Popped(y.log, q)
    ensures NewTo(y.streams[i], ev, Popped(y.log, y.streams[i].queue) + 1)
  {
    var s := y.streams[i];
    assert WorkerOrdered(s.workers[ev.w], s.queue, s.born, Popped(y.log, s.queue));
  }

  lemma ForwardKeeps(y: Sys, i: nat, w: nat)
    requires Inv(y) && Next(y, Forward(i, w)).Some?
    ensures Inv(Next(y, Forward(i, w)).value)
  {
    var ev, q := Redirect(w, |y.streams|), y.streams[i].queue;
    var s := NewStream(q, PopWorker, Popped(y.log, q));
    ActKeeps(y, i, ev, y.log);
    NewStreamOk(q, PopWorker, y.log);
    AddedOk(Act(y, i, ev).value.streams, s, y.log);
    LocalFrame(y.streams[i], ev);
    hide LocalStep;
    ForwardLinked(y, i, w, Act(y, i, ev).value.streams, s);
  }

  lemma ForwardLinked(y: Sys, i: nat, w: nat, moved: seq<Stream>, s: Stream)
    requires Inv(y) && i < |y.streams| && s == NewStream(y.streams[i].queue, PopWorker, Popped(y.log, y.streams[i].queue))
    requires |moved| == |y.streams| && forall j | 0 <= j < |moved| && j != i :: moved[j] == y.streams[j]
    requires var (a, b) := (y.streams[i], moved[i]);
             && b.queue == a.queue && b.born == a.born && |b.workers| == |a.workers|
             && forall v | 0 <= v < |a.workers| && b.workers[v].phase.Forwarding? ::
                  b.workers[v] == a.workers[v] ||
                  (b.workers[v].phase.to == |y.streams| && b.workers[v].sent == a.workers[v].sent)
    ensures Linked(moved + [s])
  {
    var ss, ss' := y.streams, moved + [s];
    forall j, v | 0 <= j < |ss'| && 0 <= v < |ss'[j].workers| ensures LinkOk(ss', j, ss'[j].workers[v]) {
      if j < |ss| {
        assert LinkOk(ss, j, ss[j].workers[v]);
        assert WorkerOrdered(ss[j].workers[v], ss[j].queue, ss[j].born, Popped(y.log, ss[j].queue));
      }
    }
  }

  lemma ForwardReceiveKeeps(y: Sys, i: nat, w: nat)
    requires Inv(y) && Next(y, ForwardReceive(i, w)).Some?
    ensures Inv(Next(y, ForwardReceive(i, w)).value)
  {
    var j := Reading(y, i, w).value;
    PullActs(y, j);
    var t := y.streams[j].wire[0];
    assert LinkOk(y.streams, i, y.streams[i].workers[w]);
    assert Within(t, y.streams[j].queue, y.streams[j].born, Popped(y.log, y.streams[j].queue));
    ActKeeps(y, j, Pull, y.log);
    ActLinked(y, j, Pull);
    var pulled := Act(y, j, Pull).value;
    hide LocalStep;
    ActKeeps(pulled, i, Obtain(w, t), y.log);
    ActLinked(pulled, i, Obtain(w, t));
  }

  lemma GiveUpKeeps(y: Sys, i: nat, w: nat)
    requires Inv(y) && Next(y, GiveUp(i, w)).Some?
    ensures Inv(Next(y, GiveUp(i, w)).value)
  {
    var j := Reading(y, i, w).value;
    LeaveActs(y, j);
    hide LocalStep;
    ActKeeps(y, j, Leave, y.log);
    ActLinked(y, j, Leave);
    ActKeeps(Act(y, j, Leave).value, i, Retry(w), y.log);
    ActLinked(Act(y, j, Leave).value, i, Retry(w));
  }

  lemma NextKeeps(y: Sys, a: Action)
    requires Inv(y) && Next(y, a).Some?
    ensures Inv(Next(y, a).value)
  {
    hide LocalStep;
    match a
    case Commit(e) => PoppedLater(y.log, e, y.streams);
    case Subscribe(q) =>
      NewStreamOk(q, Client, y.log);
      AddedOk(y.streams, NewStream(q, Client, Popped(y.log, q)), y.log);
      AddedLinked(y.streams, NewStream(q, Client, Popped(y.log, q)));
    case Local(i, ev) =>
      ActKeeps(y, i, ev, y.log);
      ActLinked(y, i, ev);
    case CommitPop(i, w, id) => CommitPopKeeps(y, i, w, id);
    case CommitOrphan(k, id) => PoppedLater(y.log, PopEntry(y.orphans[k], id), y.streams);
    case Forward(i, w) => ForwardKeeps(y, i, w);
    case ForwardReceive(i, w) => ForwardReceiveKeeps(y, i, w);
    case GiveUp(i, w) => GiveUpKeeps(y, i, w);
  }

  lemma {:induction false} RunKeeps(y: Sys, acts: seq<Action>)
    requires Inv(y) && Conserved(y) && After(y, acts).Some?
    ensures Inv(After(y, acts).value) && Conserved(After(y, acts).value)
    decreases |acts|
  {
    hide Next, Inv;
    if acts != [] {
      NextKeeps(y, acts[0]);
      forall t ensures Outside(Next(y, acts[0]).value, t) == PoppedCount(Next(y, acts[0]).value.log, t) {
        NextConserves(y, acts[0], t);
      }
      RunKeeps(Next(y, acts[0]).value, acts[1..]);
    }
  }

  lemma Reached(acts: seq<Action>)
    requires After(IDLE, acts).Some?
    ensures Inv(After(IDLE, acts).value) && Conserved(After(IDLE, acts).value)
  {
    assert Inv(IDLE) && Conserved(IDLE);
    RunKeeps(IDLE, acts);
  }

  /** Distinct offsets make every message of a history unique, so a prefix holds each of its messages once. */
  lemma {:induction false} CountInPrefix(log: seq<QueueEntry>, q: string, k: nat, n: nat)
    requires |log| < U64 && k < |Published(log, q)| && n <= |Published(log, q)|
    ensures multiset(Published(log, q)[..n])[Published(log, q)[k]] == if k < n then 1 else 0
  {
    if n > 0 {
      CountInPrefix(log, q, k, n - 1);
      CountNext(Published(log, q), n - 1, Published(log, q)[k]);
      PublishedBound(log, q);
      OffsetIsPosition(log, q, k);
      OffsetIsPosition(log, q, n - 1);
    }
  }

  /**
    Every published message is in exactly one place: still in its queue, or once
    among workers, channels, wires, deliveries and losses.
   */
  lemma OnePlaceEach(acts: seq<Action>, q: string, k: nat)
    requires After(IDLE, acts).Some? && k < |Published(After(IDLE, acts).value.log, q)|
    ensures var y := After(IDLE, acts).value;
            var h := Published(y.log, q);
            && Outside(y, Token(q, h[k])) == (if k < Popped(y.log, q) then 1 else 0)
            && (h[k] in Contents(Replay(y.log).state, q) <==> k >= Popped(y.log, q))
  {
    Reached(acts);
    var y := After(IDLE, acts).value;
    assert |y.log| < U64;
    hide After, Outside, Contents, Inv;
    CountInPrefix(y.log, q, k, Popped(y.log, q));
    QueuedIff(y.log, q, k);
  }

  lemma {:induction false} QueuedIff(log: seq<QueueEntry>, q: string, k: nat)
    requires |log| < U64 && k < |Published(log, q)|
    ensures Published(log, q)[k] in Contents(Replay(log).state, q) <==> k >= Popped(log, q)
  {
    StateIsHistory(log, q);
    assert Contents(Replay(log).state, q) == Published(log, q)[Popped(log, q)..];
    PublishedBound(log, q);
    forall j | 0 <= j < |Published(log, q)| ensures Published(log, q)[j].offset == j {
      OffsetIsPosition(log, q, j);
    }
    InTailIff(Published(log, q), Popped(log, q), k);
  }

  lemma InTailIff(h: seq<Message>, n: nat, k: nat)
    requires n <= |h| && k < |h| && forall j | 0 <= j < |h| :: h[j].offset == j
    ensures h[k] in h[n..] <==> n <= k
  {
    if n <= k {
      assert h[n..][k - n] == h[k];
    }
  }

  /** Whatever is outside the queues was published, and popped from where it was published. */
  lemma NothingInvented(acts: seq<Action>, t: Token)
    requires After(IDLE, acts).Some? && Outside(After(IDLE, acts).value, t) > 0
    ensures var y := After(IDLE, acts).value;
            && t.msg.offset < Popped(y.log, t.queue)
            && Published(y.log, t.queue)[t.msg.offset] == t.msg
  {
    Reached(acts);
    var y := After(IDLE, acts).value;
    assert |y.log| < U64;
    hide After, Outside, Inv;
    CountedWasPopped(y.log, t);
  }

  lemma {:induction false} CountedWasPopped(log: seq<QueueEntry>, t: Token)
    requires |log| < U64 && PoppedCount(log, t) > 0
    ensures t.msg.offset < Popped(log, t.queue) && Published(log, t.queue)[t.msg.offset] == t.msg
  {
    var k := PositionOf(Published(log, t.queue), Popped(log, t.queue), t.msg);
    PublishedBound(log, t.queue);
    OffsetIsPosition(log, t.queue, k);
  }

  lemma PositionOf(h: seq<Message>, n: nat, m: Message) returns (k: nat)
    requires n <= |h| && multiset(h[..n])[m] > 0
    ensures k < n && h[k] == m
  {
    assert m in multiset(h[..n]);
    assert m in h[..n];
    k :| 0 <= k < n && h[..n][k] == m;
  }

  lemma CountTwice(ts: seq<Token>, i: nat, j: nat)
    requires i < j < |ts| && ts[i] == ts[j]
    ensures Count(ts, ts[i]) >= 2
  {
    assert ts == ts[..i] + [ts[i]] + ts[i + 1..j] + [ts[j]] + ts[j + 1..];
  }

  /** At most once: no two deliveries, to any clients of any nodes, carry one offset of one queue. */
  lemma NoDuplicateDelivery(acts: seq<Action>, i: nat, j: nat)
    requires After(IDLE, acts).Some?
    requires i < j < |After(IDLE, acts).value.delivered|
    ensures var d := After(IDLE, acts).value.delivered;
            d[i].queue == d[j].queue ==> d[i].msg.offset != d[j].msg.offset
  {
    var y := After(IDLE, acts).value;
    var d := y.delivered;
    if d[i].queue == d[j].queue && d[i].msg.offset == d[j].msg.offset {
      InDelivered(y, i);
      InDelivered(y, j);
      NothingInvented(acts, d[i]);
      NothingInvented(acts, d[j]);
      CountTwice(d, i, j);
      OnePlaceEach(acts, d[i].queue, d[i].msg.offset);
    }
  }

  lemma InDelivered(y: Sys, i: nat)
    requires i < |y.delivered|
    ensures Outside(y, y.delivered[i]) > 0
  {
    assert y.delivered[i] in multiset(y.delivered);
  }

  /** The offsets a worker sends only go up, whether it popped them itself or read them from a forwarded stream. */
  lemma WorkerOrder(acts: seq<Action>, i: nat, w: nat)
    requires After(IDLE, acts).Some? && i < |After(IDLE, acts).value.streams|
    requires w < |After(IDLE, acts).value.streams[i].workers|
    ensures Increasing(After(IDLE, acts).value.streams[i].workers[w].sent)
  {
    Reached(acts);
    var y := After(IDLE, acts).value;
    assert WorkerOrdered(y.streams[i].workers[w], y.streams[i].queue, y.streams[i].born,
                         Popped(y.log, y.streams[i].queue));
  }

  /**
    Over a stream's whole life, pops by workers that outlive a disconnect included,
    its workers never obtained over 160 messages more than were taken from its
    channel, responses lost to errors aside.
   */
  lemma InFlightIsBounded(acts: seq<Action>, i: nat)
    requires After(IDLE, acts).Some? && i < |After(IDLE, acts).value.streams|
    ensures var tally := After(IDLE, acts).value.streams[i].tally;
            tally.obtained <= tally.taken + tally.errored + 160
  {
    Reached(acts);
    InFlightBound(After(IDLE, acts).value.streams[i]);
  }

  // Loss has causes.

  predicate Loses(y: Sys, a: Action, t: Token) {
    match a
    case Local(i, ev) => i < |y.streams| && LosesToken(y.streams[i], ev, t)
    case CommitOrphan(k, id) => k < |y.orphans| && Answer(y.log, y.orphans[k], id) == Some(t)
    case _ => false
  }

  lemma ActLossIff(y: Sys, i: nat, ev: Event, t: Token)
    requires Act(y, i, ev).Some?
    ensures Count(y.lost, t) <= Count(Act(y, i, ev).value.lost, t)
    ensures Count(y.lost, t) < Count(Act(y, i, ev).value.lost, t) <==> LosesToken(y.streams[i], ev, t)
  {
    LocalLossIff(y.streams[i], ev, t);
    CountConcat(y.lost, LocalStep(y.streams[i], ev).value.lost, t);
  }

  /**
    A message is lost exactly when its stream is disconnected with the message in its
    channel or on its wire, its process dies with it, a worker holding it finds the
    channel closed, or the response that carried it was an error or had nobody waiting.
    Nothing is ever taken back from the lost.
   */
  lemma LossIff(y: Sys, a: Action, t: Token)
    requires Next(y, a).Some?
    ensures Count(y.lost, t) <= Count(Next(y, a).value.lost, t)
    ensures Count(y.lost, t) < Count(Next(y, a).value.lost, t) <==> Loses(y, a, t)
  {
    hide LocalStep, Count, Answer;
    match a
    case Local(i, ev) => ActLossIff(y, i, ev, t);
    case CommitPop(i, w, id) => ActLossIff(y, i, Committed(w, Answer(y.log, y.streams[i].queue, id)), t);
    case CommitOrphan(k, id) => CountOption(y.lost, Answer(y.log, y.orphans[k], id), t);
    case Forward(i, w) => ActLossIff(y, i, Redirect(w, |y.streams|), t);
    case ForwardReceive(i, w) =>
      var j := Reading(y, i, w).value;
      PullActs(y, j);
      ActLossIff(y, j, Pull, t);
      ActLossIff(Act(y, j, Pull).value, i, Obtain(w, y.streams[j].wire[0]), t);
    case GiveUp(i, w) =>
      var j := Reading(y, i, w).value;
      LeaveActs(y, j);
      ActLossIff(y, j, Leave, t);
      ActLossIff(Act(y, j, Leave).value, i, Retry(w), t);
    case _ =>
  }

  /** Some step of the run loses `t`. */
  predicate LosesIn(y: Sys, acts: seq<Action>, t: Token)
    decreases |acts|
  {
    acts != [] &&
    (Loses(y, acts[0], t) || (Next(y, acts[0]).Some? && LosesIn(Next(y, acts[0]).value, acts[1..], t)))
  }

  lemma {:induction false} LostInRunIff(y: Sys, acts: seq<Action>, t: Token)
    requires After(y, acts).Some?
    ensures Count(y.lost, t) <= Count(After(y, acts).value.lost, t)
    ensures Count(y.lost, t) < Count(After(y, acts).value.lost, t) <==> LosesIn(y, acts, t)
    decreases |acts|
  {
    hide Next, Loses, Count;
    if acts != [] {
      LossIff(y, acts[0], t);
      LostInRunIff(Next(y, acts[0]).value, acts[1..], t);
    }
  }

  /** Over a whole run: nothing is lost if and only if no step has one of the causes. */
  lemma NothingLostIff(acts: seq<Action>)
    requires After(IDLE, acts).Some?
    ensures After(IDLE, acts).value.lost == [] <==> forall t :: !LosesIn(IDLE, acts, t)
  {
    var lost := After(IDLE, acts).value.lost;
    if lost == [] {
      forall t ensures !LosesIn(IDLE, acts, t) {
        LostInRunIff(IDLE, acts, t);
      }
    } else {
      LostInRunIff(IDLE, acts, lost[0]);
      assert lost[0] in multiset(lost);
    }
  }

  // One stream that nobody disturbs.

  /** A disconnect or death of stream `i`, or a pop of its workers that commits but gets no `Ok`. */
  predicate Disturbs(a: Action, i: nat) {
    a.Local? && a.i == i && (a.ev.Disconnect? || a.ev.Die? || a.ev.RespondErr?)
  }

  predicate Steady(s: Stream) {
    s.open && s.tally.errored == s.tally.dropped == s.tally.failed == 0
  }

  lemma SteadyLocal(s: Stream, ev: Event)
    requires Steady(s) && LocalStep(s, ev).Some? && !ev.Disconnect? && !ev.Die? && !ev.RespondErr?
    ensures Steady(LocalStep(s, ev).value.stream)
    ensures LocalStep(s, ev).value.lost == [] && LocalStep(s, ev).value.orphans == 0
  {
  }

  lemma SteadyAct(y: Sys, j: nat, ev: Event, i: nat)
    requires Act(y, j, ev).Some? && i < |y.streams| && Steady(y.streams[i])
    requires i == j ==> !ev.Disconnect? && !ev.Die? && !ev.RespondErr?
    ensures i < |Act(y, j, ev).value.streams| && Steady(Act(y, j, ev).value.streams[i])
  {
    hide Steady;
    if i == j {
      SteadyLocal(y.streams[i], ev);
    }
    hide LocalStep;
  }

  /** A stream stays steady whatever the others do, forwards to it included, and starts so. */
  lemma SteadyNext(y: Sys, a: Action, i: nat)
    requires Next(y, a).Some? && !Disturbs(a, i) && i < |Next(y, a).value.streams|
    requires i < |y.streams| ==> Steady(y.streams[i])
    ensures Steady(Next(y, a).value.streams[i])
  {
    if i < |y.streams| {
      hide LocalStep, Steady;
      match a
      case Local(j, ev) => SteadyAct(y, j, ev, i);
      case CommitPop(j, w, id) => SteadyAct(y, j, Committed(w, Answer(y.log, y.streams[j].queue, id)), i);
      case Forward(j, w) => SteadyAct(y, j, Redirect(w, |y.streams|), i);
      case ForwardReceive(j, w) =>
        var k := Reading(y, j, w).value;
        PullActs(y, k);
        SteadyAct(y, k, Pull, i);
        SteadyAct(Act(y, k, Pull).value, j, Obtain(w, y.streams[k].wire[0]), i);
      case GiveUp(j, w) =>
        var k := Reading(y, j, w).value;
        LeaveActs(y, k);
        SteadyAct(y, k, Leave, i);
        SteadyAct(Act(y, k, Leave).value, j, Retry(w), i);
      case _ =>
    }
  }

  /** Some step of the run is an event of stream `i` that loses `t`. */
  predicate LosesAt(y: Sys, acts: seq<Action>, i: nat, t: Token)
    decreases |acts|
  {
    acts != [] &&
    ((acts[0].Local? && acts[0].i == i && Loses(y, acts[0], t)) ||
     (Next(y, acts[0]).Some? && LosesAt(Next(y, acts[0]).value, acts[1..], i, t)))
  }

  lemma {:induction false} SteadyRun(y: Sys, acts: seq<Action>, i: nat)
    requires After(y, acts).Some? && forall k | 0 <= k < |acts| :: !Disturbs(acts[k], i)
    requires i < |y.streams| ==> Steady(y.streams[i])
    ensures i < |After(y, acts).value.streams| ==> Steady(After(y, acts).value.streams[i])
    ensures forall t :: !LosesAt(y, acts, i, t)
    decreases |acts|
  {
    hide Next, Steady;
    if acts != [] {
      var next := Next(y, acts[0]).value;
      if i < |next.streams| {
        StreamsStay(y, acts[0]);
        SteadyNext(y, acts[0], i);
      }
      forall t ensures !(acts[0].Local? && acts[0].i == i && Loses(y, acts[0], t)) {
        SteadyLosesNothing(y, acts[0], i, t);
      }
      SteadyRun(next, acts[1..], i);
    }
  }

  lemma StreamsStay(y: Sys, a: Action)
    requires Next(y, a).Some?
    ensures |y.streams| <= |Next(y, a).value.streams|
  {
    hide LocalStep;
    if a.GiveUp? {
      LeaveActs(y, Reading(y, a.i, a.w).value);
    }
  }

  lemma SteadyLosesNothing(y: Sys, a: Action, i: nat, t: Token)
    requires !Disturbs(a, i) && (i < |y.streams| ==> Steady(y.streams[i]))
    ensures !(a.Local? && a.i == i && Loses(y, a, t))
  {
  }

  /**
    A stream that is never disconnected, whose process lives and whose committed pops
    all get their `Ok`, loses nothing, whatever other streams and nodes do: every
    message its workers ever obtained was taken from its channel, is in it, or in hand.
   */
  lemma UndisturbedStreamLosesNothing(acts: seq<Action>, i: nat)
    requires After(IDLE, acts).Some? && i < |After(IDLE, acts).value.streams|
    requires forall k | 0 <= k < |acts| :: !Disturbs(acts[k], i)
    ensures var s := After(IDLE, acts).value.streams[i];
            && s.open
            && s.tally.obtained == s.tally.taken + |s.channel| + |InHand(s)|
            && s.tally.obtained <= s.tally.taken + 160
    ensures forall t :: !LosesAt(IDLE, acts, i, t)
  {
    Reached(acts);
    SteadyRun(IDLE, acts, i);
    var s := After(IDLE, acts).value.streams[i];
    InFlightBound(s);
    InHandCount(s.workers, |s.workers|, Token("", Message(0, [])));
  }

  // A whole cluster that nobody disturbs.

  predicate Calm(a: Action) {
    a.Local? ==> !a.ev.Disconnect? && !a.ev.Die? && !a.ev.RespondErr?
  }

  predicate AllCalm(y: Sys) {
    y.orphans == [] && forall i | 0 <= i < |y.streams| :: Steady(y.streams[i])
  }

  lemma CalmKeeps(y: Sys, a: Action)
    requires AllCalm(y) && Calm(a) && Next(y, a).Some?
    ensures AllCalm(Next(y, a).value)
  {
    StreamsStay(y, a);
    forall i | 0 <= i < |Next(y, a).value.streams| ensures Steady(Next(y, a).value.streams[i]) {
      SteadyNext(y, a, i);
    }
    CalmOrphans(y, a);
  }

  lemma CalmOrphans(y: Sys, a: Action)
    requires AllCalm(y) && Calm(a) && Next(y, a).Some?
    ensures Next(y, a).value.orphans == []
  {
    if a.Local? {
      SteadyLocal(y.streams[a.i], a.ev);
    }
  }

  /** If no stream is disturbed, nothing is lost anywhere, forwards and all. */
  lemma {:induction false} CalmRunsLoseNothing(y: Sys, acts: seq<Action>)
    requires AllCalm(y) && After(y, acts).Some? && forall k | 0 <= k < |acts| :: Calm(acts[k])
    ensures AllCalm(After(y, acts).value) && forall t :: !LosesIn(y, acts, t)
    decreases |acts|
  {
    hide Next, Calm;
    if acts != [] {
      CalmKeeps(y, acts[0]);
      CalmRunsLoseNothing(Next(y, acts[0]).value, acts[1..]);
      forall t ensures !Loses(y, acts[0], t) {
        CalmLosesNothing(y, acts[0], t);
      }
    }
  }

  lemma CalmLosesNothing(y: Sys, a: Action, t: Token)
    requires AllCalm(y) && Calm(a)
    ensures !Loses(y, a, t)
  {
    hide Steady;
    if a.Local? && a.i < |y.streams| {
      SteadyLosesNothing(y, a, a.i, t);
    }
  }
}

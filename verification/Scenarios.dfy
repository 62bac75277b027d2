/** Concrete runs of the consume protocol: what it can do, and what it does not promise. */
module Scenarios {
  import opened Wrappers
  import opened Types
  import opened QueueModel
  import opened QueueHistory
  import opened ConsumeStream
  import opened Consume
  import Progress

  const Q := "q"
  const LEADER := LeaderId(1, 1)
  const SUBSCRIBED := Worker(Ready, [])
  const NO_TALLY := Tally(0, 0, 0, 0, 0)

  function PublishAs(index: u64, payload: Bytes): QueueEntry {
    Entry(LogId(LEADER, index), Normal(QueueRequest.Publish(Q, payload)))
  }

  /** A client's stream whose first two workers are `a` and `b`, and whose others have not begun. */
  function ClientStream(a: Worker, b: Worker, channel: seq<Token>, wire: seq<Token>, tally: Tally): (s: Stream)
    ensures s.queue == Q && s.consumer == Client && s.open && s.channel == channel && s.wire == wire
  {
    var s := NewStream(Q, Client, 0);
    s.(workers := s.workers[0 := a][1 := b], channel := channel, wire := wire, tally := tally)
  }

  function Solo(log: seq<QueueEntry>, s: Stream, delivered: seq<Token>, lost: seq<Token>): Sys {
    Sys(log, [s], [], delivered, lost)
  }

  /** One event of the only stream. */
  lemma Happens(acts: seq<Action>, log: seq<QueueEntry>, s: Stream, delivered: seq<Token>, ev: Event, e: Effect)
    returns (more: seq<Action>)
    requires After(IDLE, acts) == Some(Solo(log, s, delivered, []))
    requires Alone(ev) && LocalStep(s, ev) == Some(e) && e.orphans == 0
    ensures e.out.None? ==> After(IDLE, more) == Some(Solo(log, e.stream, delivered, e.lost))
    ensures e.out.Some? ==> After(IDLE, more) == Some(Solo(log, e.stream, delivered + [e.out.value], e.lost))
  {
    more := acts + [Local(0, ev)];
    Progress.Extend(IDLE, acts, Local(0, ev));
    hide After, LocalStep;
    var y := Solo(log, s, delivered, []);
    assert Out(s, ev) == e.out;
    assert delivered + [] == delivered;
    assert [s][0 := e.stream] == [e.stream];
    assert [] + e.lost == e.lost;
    assert [] + seq(e.orphans, _ => s.queue) == [];
    assert Act(y, 0, ev) == Some(Solo(log, e.stream, delivered, e.lost));
  }

  /** The effect of a worker's event on a client's stream. */
  lemma WorkerMoves(a: Worker, b: Worker, channel: seq<Token>, tally: Tally, ev: Event, c: Change, channel': seq<Token>)
    requires WorkerEvent(ev) && ev.w < 2
    requires WorkerStep(if ev.w == 0 then a else b, ev, true, |channel| < CAPACITY, tally) == Some(c) && c.orphans == 0
    requires channel' == channel + AsSeq(c.sent)
    ensures LocalStep(ClientStream(a, b, channel, [], tally), ev)
            == Some(Effect(ClientStream(if ev.w == 0 then c.now else a, if ev.w == 0 then b else c.now, channel', [], c.tally),
                           None, AsSeq(c.lost), 0))
  {
    hide WorkerStep;
    var s := ClientStream(a, b, channel, [], tally);
    var s' := ClientStream(if ev.w == 0 then c.now else a, if ev.w == 0 then b else c.now, channel', [], c.tally);
    assert Changed(s, ev.w, c).workers == s'.workers;
    assert Changed(s, ev.w, c).channel == channel';
    assert s.workers[ev.w] == if ev.w == 0 then a else b;
  }

  /** A worker proposes a pop, which commits. */
  lemma PopOnce(acts: seq<Action>, log: seq<QueueEntry>, a: Worker, b: Worker, tally: Tally, w: nat, id: LogId, t: Token)
    returns (more: seq<Action>)
    requires After(IDLE, acts) == Some(Solo(log, ClientStream(a, b, [], [], tally), [], []))
    requires w < 2 && (if w == 0 then a else b) == SUBSCRIBED && |log| + 1 < U64
    requires Answer(log, Q, id) == Some(t)
    ensures var got := Worker(Answered(Some(t)), []);
            After(IDLE, more) ==
            Some(Solo(log + [PopEntry(Q, id)],
                      ClientStream(if w == 0 then got else a, if w == 0 then b else got, [], [],
                                   tally.(obtained := tally.obtained + 1)), [], []))
  {
    hide After, Answer, ClientStream;
    var sent, got := Worker(Proposed, []), Worker(Answered(Some(t)), []);
    var s0 := ClientStream(a, b, [], [], tally);
    var s1 := ClientStream(if w == 0 then sent else a, if w == 0 then b else sent, [], [], tally);
    var s2 := ClientStream(if w == 0 then got else a, if w == 0 then b else got, [], [], tally.(obtained := tally.obtained + 1));
    WorkerMoves(a, b, [], tally, Propose(w), Change(sent, None, None, 0, tally), []);
    more := Happens(acts, log, s0, [], Propose(w), Effect(s1, None, [], 0));
    WorkerMoves(if w == 0 then sent else a, if w == 0 then b else sent, [], tally, Committed(w, Some(t)),
                Change(got, None, None, 0, tally.(obtained := tally.obtained + 1)), []);
    more := PopCommits(more, log, s1, s2, w, id, t);
  }

  lemma PopCommits(acts: seq<Action>, log: seq<QueueEntry>, s: Stream, s': Stream, w: nat, id: LogId, t: Token)
    returns (more: seq<Action>)
    requires After(IDLE, acts) == Some(Solo(log, s, [], [])) && s.queue == Q && |log| + 1 < U64
    requires Answer(log, Q, id) == Some(t) && LocalStep(s, Committed(w, Some(t))) == Some(Effect(s', None, [], 0))
    ensures After(IDLE, more) == Some(Solo(log + [PopEntry(Q, id)], s', [], []))
  {
    more := acts + [CommitPop(0, w, id)];
    Progress.Extend(IDLE, acts, CommitPop(0, w, id));
    hide After, Answer, LocalStep;
    var y := Solo(log, s, [], []);
    assert [s][0 := s'] == [s'];
    assert [] + seq(0, _ => s.queue) == [];
    assert Act(y, 0, Committed(w, Some(t))) == Some(Solo(log, s', [], []));
  }

  /** A client subscribes to a queue with these messages published and none popped. */
  lemma Subscribed(log: seq<QueueEntry>)
    returns (acts: seq<Action>)
    requires |log| < 3 && forall k | 0 <= k < |log| :: Publishes(log[k], Q)
    ensures After(IDLE, acts) == Some(Solo(log, ClientStream(SUBSCRIBED, SUBSCRIBED, [], [], NO_TALLY), [], []))
  {
    acts := [];
    for k := 0 to |log|
      invariant After(IDLE, acts) == Some(Sys(log[..k], [], [], [], []))
    {
      Progress.Extend(IDLE, acts, Commit(log[k]));
      acts := acts + [Commit(log[k])];
      assert log[..k] + [log[k]] == log[..k + 1];
    }
    assert log[..|log|] == log;
    NonePopped(log);
    Progress.Extend(IDLE, acts, Subscribe(Q));
    acts := acts + [Subscribe(Q)];
    var s := NewStream(Q, Client, 0);
    assert s.workers[0 := SUBSCRIBED][1 := SUBSCRIBED] == s.workers;
    assert ClientStream(SUBSCRIBED, SUBSCRIBED, [], [], NO_TALLY) == s;
    assert [] + [s] == [s];
  }

  lemma {:induction false} NonePopped(log: seq<QueueEntry>)
    requires forall k | 0 <= k < |log| :: Publishes(log[k], Q)
    ensures Popped(log, Q) == 0
  {
    if log != [] {
      NonePopped(log[..|log| - 1]);
    }
  }

  /** A pop that committed and whose response was an error: the message is gone, and no client ever saw it. */
  lemma PoppedAndLost(p: Bytes) returns (acts: seq<Action>)
    ensures After(IDLE, acts).Some?
    ensures After(IDLE, acts).value.lost == [Token(Q, Message(0, p))]
    ensures After(IDLE, acts).value.delivered == [] && Contents(Replay(After(IDLE, acts).value.log).state, Q) == []
  {
    hide After, ClientStream;
    var log, id, t := [PublishAs(0, p)], LogId(LEADER, 1), Token(Q, Message(0, p));
    var one, got := NO_TALLY.(obtained := 1), Worker(Answered(Some(t)), []);
    Answers(p, p);
    acts := Subscribed(log);
    acts := PopOnce(acts, log, SUBSCRIBED, SUBSCRIBED, NO_TALLY, 0, id, t);
    WorkerMoves(got, SUBSCRIBED, [], one, RespondErr(0), Change(SUBSCRIBED, None, Some(t), 0, one.(errored := 1)), []);
    acts := Happens(acts, log + [PopEntry(Q, id)], ClientStream(got, SUBSCRIBED, [], [], one), [], RespondErr(0),
                    Effect(ClientStream(SUBSCRIBED, SUBSCRIBED, [], [], one.(errored := 1)), None, [t], 0));
    StateIsHistory(log + [PopEntry(Q, id)], Q);
    HistorySnoc(log, PopEntry(Q, id), Q);
  }

  /** What pops of a queue with one or two messages answer. */
  lemma Answers(p: Bytes, r: Bytes)
    ensures Published([PublishAs(0, p)], Q) == [Message(0, p)] && Popped([PublishAs(0, p)], Q) == 0
    ensures Answer([PublishAs(0, p)], Q, LogId(LEADER, 1)) == Some(Token(Q, Message(0, p)))
    ensures var log := [PublishAs(0, p), PublishAs(1, r)];
            && Answer(log, Q, LogId(LEADER, 2)) == Some(Token(Q, Message(0, p)))
            && Answer(log + [PopEntry(Q, LogId(LEADER, 2))], Q, LogId(LEADER, 3)) == Some(Token(Q, Message(1, r)))
  {
    var one, two, id := [PublishAs(0, p)], [PublishAs(0, p), PublishAs(1, r)], LogId(LEADER, 2);
    assert [] + one == one && one + [PublishAs(1, r)] == two;
    HistorySnoc([], PublishAs(0, p), Q);
    HistorySnoc(one, PublishAs(1, r), Q);
    HistorySnoc(two, PopEntry(Q, id), Q);
    AnswerIsOldest(one, Q, LogId(LEADER, 1));
    AnswerIsOldest(two, Q, id);
    AnswerIsOldest(two + [PopEntry(Q, id)], Q, LogId(LEADER, 3));
  }

  /** Two workers of one stream: the later message is delivered first. */
  lemma DeliveredOutOfOrder(p: Bytes, r: Bytes) returns (acts: seq<Action>)
    ensures After(IDLE, acts).Some?
    ensures After(IDLE, acts).value.delivered == [Token(Q, Message(1, r)), Token(Q, Message(0, p))]
  {
    hide After, ClientStream;
    var (log, id0, id1) := ([PublishAs(0, p), PublishAs(1, r)], LogId(LEADER, 2), LogId(LEADER, 3));
    var (t0, t1) := (Token(Q, Message(0, p)), Token(Q, Message(1, r)));
    var got0, got1 := Worker(Answered(Some(t0)), []), Worker(Answered(Some(t1)), []);
    Answers(p, r);
    acts := Subscribed(log);
    acts := PopOnce(acts, log, SUBSCRIBED, SUBSCRIBED, NO_TALLY, 0, id0, t0);
    log := log + [PopEntry(Q, id0)];
    acts := PopOnce(acts, log, got0, SUBSCRIBED, NO_TALLY.(obtained := 1), 1, id1, t1);
    log := log + [PopEntry(Q, id1)];
    var two := NO_TALLY.(obtained := 1).(obtained := 2);
    acts := Sends(acts, log, got0, got1, [], two, 1, t1, [t1]);
    acts := Sends(acts, log, got0, Worker(Ready, [1]), [t1], two, 0, t0, [t1, t0]);
    acts := Delivers(acts, log, ClientStream(Worker(Ready, [0]), Worker(Ready, [1]), [t1, t0], [], two), t1, t0);
  }

  /** A worker gets its response and sends the message in it. */
  lemma Sends(acts: seq<Action>, log: seq<QueueEntry>, a: Worker, b: Worker, channel: seq<Token>, tally: Tally,
              w: nat, t: Token, channel': seq<Token>)
    returns (more: seq<Action>)
    requires After(IDLE, acts) == Some(Solo(log, ClientStream(a, b, channel, [], tally), [], []))
    requires w < 2 && (if w == 0 then a else b) == Worker(Answered(Some(t)), [])
    requires |channel| < CAPACITY && channel' == channel + [t]
    ensures var done := Worker(Ready, [t.msg.offset]);
            After(IDLE, more) ==
            Some(Solo(log, ClientStream(if w == 0 then done else a, if w == 0 then b else done, channel', [], tally), [], []))
  {
    hide After, ClientStream;
    var holding, done := Worker(Holding(t), []), Worker(Ready, [t.msg.offset]);
    var s1 := ClientStream(if w == 0 then holding else a, if w == 0 then b else holding, channel, [], tally);
    var s2 := ClientStream(if w == 0 then done else a, if w == 0 then b else done, channel', [], tally);
    WorkerMoves(a, b, channel, tally, RespondOk(w), Change(holding, None, None, 0, tally), channel);
    more := Happens(acts, log, ClientStream(a, b, channel, [], tally), [], RespondOk(w), Effect(s1, None, [], 0));
    assert [] + [t.msg.offset] == [t.msg.offset];
    WorkerMoves(if w == 0 then holding else a, if w == 0 then b else holding, channel, tally, Send(w),
                Change(done, Some(t), None, 0, tally), channel');
    more := Happens(more, log, s1, [], Send(w), Effect(s2, None, [], 0));
  }

  /** The two messages of the channel go over the wire to the client. */
  lemma Delivers(acts: seq<Action>, log: seq<QueueEntry>, s: Stream, t1: Token, t0: Token)
    returns (more: seq<Action>)
    requires After(IDLE, acts) == Some(Solo(log, s, [], []))
    requires s.open && s.consumer == Client && s.channel == [t1, t0] && s.wire == []
    ensures After(IDLE, more).Some? && After(IDLE, more).value.delivered == [t1, t0]
  {
    hide After;
    var s1 := s.(channel := [t0], wire := [t1], tally := s.tally.(taken := s.tally.taken + 1));
    assert [t1, t0][1..] == [t0] && [t0][1..] == [] && [] + [t1] == [t1] && [t1] + [t0] == [t1, t0];
    var s2 := s1.(channel := [], wire := [t1, t0], tally := s1.tally.(taken := s1.tally.taken + 1));
    more := Happens(acts, log, s, [], Transmit, Effect(s1, None, [], 0));
    more := Happens(more, log, s1, [], Transmit, Effect(s2, None, [], 0));
    more := Happens(more, log, s2, [], Read, Effect(s2.(wire := [t0]), Some(t1), [], 0));
    more := Happens(more, log, s2.(wire := [t0]), [t1], Read, Effect(s2.(wire := []), Some(t0), [], 0));
  }

  lemma NothingToPop(id: LogId)
    ensures Answer([], Q, id) == None && Popped([], Q) == 0
  {
    AnswerIsOldest([], Q, id);
  }

  /** One message published after a pop that found nothing. */
  lemma AnswerAfterEmptyPop(p: Bytes)
    ensures Answer([PopAs(0)] + [PublishAs(1, p)], Q, LogId(LEADER, 2)) == Some(Token(Q, Message(0, p)))
  {
    var log := [PopAs(0)] + [PublishAs(1, p)];
    assert [] + [PopAs(0)] == [PopAs(0)];
    HistorySnoc([], PopAs(0), Q);
    HistorySnoc([PopAs(0)], PublishAs(1, p), Q);
    AnswerIsOldest(log, Q, LogId(LEADER, 2));
  }

  function PopAs(index: u64): QueueEntry {
    PopEntry(Q, LogId(LEADER, index))
  }

  /** A worker pops an empty queue, and later pops and sends the message that was published in between. */
  lemma EmptyPopThenDelivery(p: Bytes) returns (acts: seq<Action>)
    ensures After(IDLE, acts).Some? && After(IDLE, acts).value.delivered == [Token(Q, Message(0, p))]
    ensures After(IDLE, acts).value.log == [PopAs(0), PublishAs(1, p), PopAs(2)]
    ensures var s := After(IDLE, acts).value.streams; |s| == 1 && |s[0].workers| > 0 && s[0].workers[0] == Worker(Ready, [0])
  {
    hide After, Answer, Next;
    var (id0, id2, t) := (LogId(LEADER, 0), LogId(LEADER, 2), Token(Q, Message(0, p)));
    var y0 := FirstSubscribes();
    NothingToPop(id0);
    AnswerAfterEmptyPop(p);
    Progress.EmptyPopStartsOver(y0, 0, 0, id0);
    acts := Joins(IDLE, [Subscribe(Q)], y0, Progress.Round(0, 0, id0));
    var y1 := y0.(log := [PopAs(0)]);
    assert y0.log + [PopAs(0)] == [PopAs(0)];
    var y2 := y1.(log := [PopAs(0)] + [PublishAs(1, p)]);
    CommitsEntry(y1, PublishAs(1, p));
    acts := Joins(IDLE, acts, y1, [Commit(PublishAs(1, p))]);
    var y3 := PopsAndSends(y2, 0, id2, t);
    acts := Joins(IDLE, acts, y2, Progress.Round(0, 0, id2) + [Local(0, Send(0))]);
    Progress.ChannelReachesClient(y3, 0);
    acts := Joins(IDLE, acts, y3, [Local(0, Transmit)] + [Local(0, Read)]);
    assert [] + [t] == [t] && [] + [0 as u64] == [0 as u64];
  }

  lemma Joins(y: Sys, acts: seq<Action>, mid: Sys, more: seq<Action>) returns (all: seq<Action>)
    requires After(y, acts) == Some(mid)
    ensures all == acts + more && After(y, all) == After(mid, more)
  {
    all := acts + more;
    Progress.AfterConcat(y, acts, more);
  }

  lemma FirstSubscribes() returns (y: Sys)
    ensures After(IDLE, [Subscribe(Q)]) == Some(y)
    ensures y == Sys([], [NewStream(Q, Client, 0)], [], [], [])
  {
    y := Sys([], [NewStream(Q, Client, 0)], [], [], []);
    Progress.AfterOne(IDLE, Subscribe(Q));
    NothingToPop(LogId(LEADER, 0));
    assert IDLE.streams + [NewStream(Q, Client, 0)] == [NewStream(Q, Client, 0)];
  }

  lemma CommitsEntry(y: Sys, e: QueueEntry)
    requires Room(y) && Publishes(e, Q)
    ensures After(y, [Commit(e)]) == Some(y.(log := y.log + [e]))
  {
    Progress.AfterOne(y, Commit(e));
  }

  /** Worker 0 of a fresh stream pops the message that is there and sends it. */
  lemma PopsAndSends(y: Sys, i: nat, id: LogId, t: Token) returns (y': Sys)
    requires i < |y.streams| && y.streams[i].queue == Q && y.streams[i].open && y.streams[i].channel == []
    requires Progress.At(y, i, 0, Ready) && y.streams[i].workers[0].sent == []
    requires Room(y) && Answer(y.log, Q, id) == Some(t)
    ensures After(y, Progress.Round(i, 0, id) + [Local(i, Send(0))]) == Some(y')
    ensures var s := y.streams[i];
            y' == Progress.With(y, i, Progress.Put(s, 0, Worker(Ready, [t.msg.offset]))
                                      .(channel := [t], tally := s.tally.(obtained := s.tally.obtained + 1)))
                  .(log := y.log + [PopEntry(Q, id)])
  {
    Progress.PopReachesChannel(y, i, 0, id, t);
    y' := After(y, Progress.Round(i, 0, id) + [Local(i, Send(0))]).value;
    hide After, Answer;
    assert [] + [t] == [t] && [] + [t.msg.offset] == [t.msg.offset];
  }

  /** A follower's worker brings a message over from a stream at the leader, and the client gets it. */
  lemma ForwardedDelivery(p: Bytes) returns (acts: seq<Action>)
    ensures After(IDLE, acts).Some?
    ensures var y := After(IDLE, acts).value;
            && y.delivered == [Token(Q, Message(0, p))] && y.lost == [] && y.log == [PublishAs(0, p), PopAs(1)]
            && |y.streams| == 2 && y.streams[1].consumer == Gone
  {
    hide After, Answer, Next;
    var (id, t) := (LogId(LEADER, 1), Token(Q, Message(0, p)));
    Answers(p, p);
    var y0 := FirstSubscribes();
    CommitsEntry(y0, PublishAs(0, p));
    assert y0.log + [PublishAs(0, p)] == [PublishAs(0, p)];
    acts := Joins(IDLE, [Subscribe(Q)], y0, [Commit(PublishAs(0, p))]);
    var y1 := y0.(log := [PublishAs(0, p)]);
    Progress.ForwardOpens(y1, 0, 0);
    Progress.AfterOne(y1, Forward(0, 0));
    acts := Joins(IDLE, acts, y1, [Forward(0, 0)]);
    var near, far := y1.streams[0], NewStream(Q, PopWorker, 0);
    var y2 := y1.(streams := [Progress.Put(near, 0, Worker(Forwarding(1), []))] + [far]);
    assert y1.streams[0 := Progress.Put(near, 0, Worker(Forwarding(1), []))] == [Progress.Put(near, 0, Worker(Forwarding(1), []))];
    assert Next(y1, Forward(0, 0)) == Some(y2);
    var y3 := PopsAndSends(y2, 1, id, t);
    acts := Joins(IDLE, acts, y2, Progress.Round(1, 0, id) + [Local(1, Send(0))]);
    var y4, tail := BringsOver(y3, t);
    acts := Joins(IDLE, acts, y3, tail);
    Progress.ChannelReachesClient(y4, 0);
    acts := Joins(IDLE, acts, y4, [Local(0, Transmit)] + [Local(0, Read)]);
    assert [] + [t] == [t];
  }

  /** The message in the far channel goes over the wire to the waiting worker, and into its own stream's channel. */
  lemma BringsOver(y: Sys, t: Token) returns (y': Sys, acts: seq<Action>)
    requires |y.streams| == 2 && y.streams[1].open && y.streams[1].consumer == PopWorker
    requires y.streams[1].channel == [t] && y.streams[1].wire == []
    requires Progress.At(y, 0, 0, Forwarding(1)) && y.streams[0].open && y.streams[0].channel == []
    ensures After(y, acts) == Some(y')
    ensures y'.log == y.log && y'.delivered == y.delivered && y'.lost == y.lost && |y'.streams| == 2
    ensures y'.streams[1].consumer == Gone
    ensures y'.streams[0].channel == [t] && y'.streams[0].wire == y.streams[0].wire
    ensures y'.streams[0].consumer == y.streams[0].consumer && y'.streams[0].open
  {
    var far := y.streams[1].(channel := [], wire := [t], tally := y.streams[1].tally.(taken := y.streams[1].tally.taken + 1));
    assert [t][1..] == [] && [] + [t] == [t];
    Progress.Quiet(y, 1, Transmit, far);
    Progress.AfterOne(y, Local(1, Transmit));
    var y1 := Progress.With(y, 1, far);
    acts := [Local(1, Transmit)];
    Progress.ForwardBrings(y1, 0, 0, 1);
    Progress.Extend(y, acts, ForwardReceive(0, 0));
    acts := acts + [ForwardReceive(0, 0)];
    hide After, Next;
    var y2 := After(y, acts).value;
    Progress.Sends(y2, 0, 0, t);
    Progress.Extend(y, acts, Local(0, Send(0)));
    acts := acts + [Local(0, Send(0))];
    y' := After(y, acts).value;
  }

  /** A proposal that its worker has given up on commits after all, and nobody gets the message. */
  lemma LateCommitIsLost(p: Bytes) returns (acts: seq<Action>)
    ensures After(IDLE, acts).Some?
    ensures After(IDLE, acts).value.lost == [Token(Q, Message(0, p))] && After(IDLE, acts).value.orphans == []
  {
    hide After, Answer;
    var (id, t) := (LogId(LEADER, 1), Token(Q, Message(0, p)));
    Answers(p, p);
    var y0 := FirstSubscribes();
    CommitsEntry(y0, PublishAs(0, p));
    assert y0.log + [PublishAs(0, p)] == [PublishAs(0, p)];
    acts := Joins(IDLE, [Subscribe(Q)], y0, [Commit(PublishAs(0, p))]);
    var y1 := y0.(log := [PublishAs(0, p)]);
    Progress.Proposes(y1, 0, 0);
    Progress.Extend(IDLE, acts, Local(0, Propose(0)));
    acts := acts + [Local(0, Propose(0))];
    var y2 := After(IDLE, acts).value;
    Progress.Extend(IDLE, acts, Local(0, RespondErr(0)));
    acts := acts + [Local(0, RespondErr(0))];
    GivesUpProposal(y2);
    var y3 := After(IDLE, acts).value;
    Progress.Extend(IDLE, acts, CommitOrphan(0, id));
    acts := acts + [CommitOrphan(0, id)];
    assert y3.orphans[..0] + y3.orphans[1..] == [] && [] + [t] == [t];
  }

  lemma GivesUpProposal(y: Sys)
    requires Progress.At(y, 0, 0, Proposed) && y.orphans == [] && y.lost == []
    ensures Next(y, Local(0, RespondErr(0))).Some?
    ensures var y' := Next(y, Local(0, RespondErr(0))).value;
            y'.orphans == [y.streams[0].queue] && y'.lost == [] && y'.log == y.log && y'.streams != []
  {
    assert [] + seq(1, _ => y.streams[0].queue) == [y.streams[0].queue];
    assert y.lost + [] == [];
  }
}

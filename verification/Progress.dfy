/**
  What the consume protocol can do from any state: an empty pop leaves its worker where
  it was, a message that is there comes to the client, and a forward brings one over.
 */
module Progress {
  import opened Wrappers
  import opened Types
  import opened QueueModel
  import opened QueueHistory
  import opened ConsumeStream
  import opened Consume
  import opened Delivery

  // Runs in parts.

  lemma {:induction false} AfterConcat(y: Sys, a: seq<Action>, b: seq<Action>)
    ensures After(y, a + b) == if After(y, a).None? then None else After(After(y, a).value, b)
    decreases |a|
  {
    if a == [] {
      assert a + b == b;
    } else {
      assert (a + b)[1..] == a[1..] + b;
      if Next(y, a[0]).Some? {
        AfterConcat(Next(y, a[0]).value, a[1..], b);
      }
    }
  }

  lemma AfterOne(y: Sys, a: Action)
    ensures After(y, [a]) == Next(y, a)
  {
    assert [a][1..] == [];
    assert Next(y, a).Some? ==> After(Next(y, a).value, []) == Some(Next(y, a).value);
  }

  /** A run that is gone through step by step. */
  lemma Extend(y: Sys, acts: seq<Action>, a: Action)
    requires After(y, acts).Some?
    ensures After(y, acts + [a]) == Next(After(y, acts).value, a)
  {
    AfterConcat(y, acts, [a]);
    AfterOne(After(y, acts).value, a);
  }

  // Single steps.

  function With(y: Sys, i: nat, s: Stream): Sys
    requires i < |y.streams|
  {
    y.(streams := y.streams[i := s])
  }

  lemma LastUpdateStays<T>(s: seq<T>, i: nat, a: T, b: T)
    requires i < |s|
    ensures s[i := a][i := b] == s[i := b]
  {
  }

  /** The stream with worker `w` replaced. */
  function Put(s: Stream, w: nat, now: Worker): Stream
    requires w < |s.workers|
  {
    s.(workers := s.workers[w := now])
  }

  /** An event of stream `i` that loses nothing and leaves no proposal behind. */
  lemma Happens(y: Sys, i: nat, ev: Event, e: Effect)
    requires i < |y.streams| && Alone(ev) && LocalStep(y.streams[i], ev) == Some(e) && e.orphans == 0 && e.lost == []
    ensures Next(y, Local(i, ev)) == Some(With(y, i, e.stream).(delivered := y.delivered + AsSeq(e.out)))
  {
    hide LocalStep;
    assert Out(y.streams[i], ev) == e.out;
    assert y.lost + [] == y.lost;
    assert y.orphans + seq(0, _ => y.streams[i].queue) == y.orphans;
  }

  lemma Quiet(y: Sys, i: nat, ev: Event, s: Stream)
    requires i < |y.streams| && Alone(ev) && LocalStep(y.streams[i], ev) == Some(Effect(s, None, [], 0))
    ensures Next(y, Local(i, ev)) == Some(With(y, i, s))
  {
    Happens(y, i, ev, Effect(s, None, [], 0));
    assert y.delivered + [] == y.delivered;
  }

  predicate At(y: Sys, i: nat, w: nat, phase: Phase) {
    i < |y.streams| && w < |y.streams[i].workers| && y.streams[i].workers[w].phase == phase
  }

  lemma Proposes(y: Sys, i: nat, w: nat)
    requires At(y, i, w, Ready)
    ensures var s := y.streams[i];
            Next(y, Local(i, Propose(w))) == Some(With(y, i, Put(s, w, s.workers[w].(phase := Proposed))))
  {
    var s := y.streams[i];
    Quiet(y, i, Propose(w), Put(s, w, s.workers[w].(phase := Proposed)));
  }

  /** The pop of a waiting worker commits and answers the oldest message, if there is one. */
  lemma Commits(y: Sys, i: nat, w: nat, id: LogId)
    requires At(y, i, w, Proposed) && Room(y)
    ensures var (s, t) := (y.streams[i], Answer(y.log, y.streams[i].queue, id));
            var tally := if t.Some? then s.tally.(obtained := s.tally.obtained + 1) else s.tally;
            Next(y, CommitPop(i, w, id)) ==
            Some(With(y, i, Put(s, w, s.workers[w].(phase := Answered(t))).(tally := tally))
                 .(log := y.log + [PopEntry(s.queue, id)]))
  {
    hide Answer;
    assert y.lost + [] == y.lost;
    assert y.orphans + seq(0, _ => y.streams[i].queue) == y.orphans;
  }

  lemma Responds(y: Sys, i: nat, w: nat, t: Option<Token>)
    requires At(y, i, w, Answered(t))
    ensures var s := y.streams[i];
            Next(y, Local(i, RespondOk(w))) ==
            Some(With(y, i, Put(s, w, s.workers[w].(phase := if t.Some? then Holding(t.value) else Ready))))
  {
    var s := y.streams[i];
    Quiet(y, i, RespondOk(w), Put(s, w, s.workers[w].(phase := if t.Some? then Holding(t.value) else Ready)));
  }

  lemma Sends(y: Sys, i: nat, w: nat, t: Token)
    requires At(y, i, w, Holding(t)) && y.streams[i].open && |y.streams[i].channel| < CAPACITY
    ensures var s := y.streams[i];
            Next(y, Local(i, Send(w))) ==
            Some(With(y, i, Put(s, w, Worker(Ready, s.workers[w].sent + [t.msg.offset])).(channel := s.channel + [t])))
  {
    var s := y.streams[i];
    Quiet(y, i, Send(w), Put(s, w, Worker(Ready, s.workers[w].sent + [t.msg.offset])).(channel := s.channel + [t]));
  }

  // Whole rounds of a worker.

  function Round(i: nat, w: nat, id: LogId): seq<Action> {
    [Local(i, Propose(w))] + [CommitPop(i, w, id)] + [Local(i, RespondOk(w))]
  }

  /** A pop's round trip: the worker holds the oldest message, or is where it began. */
  lemma RoundTrip(y: Sys, i: nat, w: nat, id: LogId)
    requires At(y, i, w, Ready) && Room(y)
    ensures var (s, t) := (y.streams[i], Answer(y.log, y.streams[i].queue, id));
            var tally := if t.Some? then s.tally.(obtained := s.tally.obtained + 1) else s.tally;
            var phase := if t.Some? then Holding(t.value) else Ready;
            After(y, Round(i, w, id)) ==
            Some(With(y, i, Put(s, w, s.workers[w].(phase := phase)).(tally := tally))
                 .(log := y.log + [PopEntry(s.queue, id)]))
  {
    hide Answer, Next;
    var s := y.streams[i];
    var t := Answer(y.log, s.queue, id);
    AfterOne(y, Local(i, Propose(w)));
    Proposes(y, i, w);
    var y1 := With(y, i, Put(s, w, s.workers[w].(phase := Proposed)));
    Extend(y, [Local(i, Propose(w))], CommitPop(i, w, id));
    Commits(y1, i, w, id);
    var y2 := Next(y1, CommitPop(i, w, id)).value;
    Extend(y, [Local(i, Propose(w))] + [CommitPop(i, w, id)], Local(i, RespondOk(w)));
    hide After;
    assert y2.streams[i].workers == s.workers[w := s.workers[w].(phase := Answered(t))];
    Responds(y2, i, w, t);
    var phase := if t.Some? then Holding(t.value) else Ready;
    var tally := y2.streams[i].tally;
    var end := Put(s, w, s.workers[w].(phase := phase)).(tally := tally);
    assert y2.streams[i].workers[w := s.workers[w].(phase := phase)] == s.workers[w := s.workers[w].(phase := phase)];
    LastUpdateStays(y.streams, i, y1.streams[i], y2.streams[i]);
    LastUpdateStays(y.streams, i, y2.streams[i], end);
  }

  /** An empty pop costs a log entry and nothing else: its worker is where it was, ready to pop again. */
  lemma EmptyPopStartsOver(y: Sys, i: nat, w: nat, id: LogId)
    requires At(y, i, w, Ready) && Room(y) && Answer(y.log, y.streams[i].queue, id) == None
    ensures After(y, Round(i, w, id)) == Some(y.(log := y.log + [PopEntry(y.streams[i].queue, id)]))
  {
    RoundTrip(y, i, w, id);
    hide After, Answer, Round;
    var s := y.streams[i];
    assert s.workers[w := s.workers[w]] == s.workers;
    assert y.streams[i := s] == y.streams;
  }

  /** A message that is there comes into the channel by one round of any ready worker. */
  lemma PopReachesChannel(y: Sys, i: nat, w: nat, id: LogId, t: Token)
    requires At(y, i, w, Ready) && Room(y) && Answer(y.log, y.streams[i].queue, id) == Some(t)
    requires y.streams[i].open && |y.streams[i].channel| < 128
    ensures var s := y.streams[i];
            After(y, Round(i, w, id) + [Local(i, Send(w))]) ==
            Some(With(y, i, Put(s, w, Worker(Ready, s.workers[w].sent + [t.msg.offset]))
                            .(channel := s.channel + [t], tally := s.tally.(obtained := s.tally.obtained + 1)))
                 .(log := y.log + [PopEntry(s.queue, id)]))
  {
    hide Next, Answer, Round;
    RoundTrip(y, i, w, id);
    Extend(y, Round(i, w, id), Local(i, Send(w)));
    var s, y1 := y.streams[i], After(y, Round(i, w, id)).value;
    hide After;
    Sends(y1, i, w, t);
    var sent := Worker(Ready, s.workers[w].sent + [t.msg.offset]);
    assert y1.streams[i].workers[w := sent] == s.workers[w := sent];
    var end := Put(s, w, sent).(channel := s.channel + [t], tally := s.tally.(obtained := s.tally.obtained + 1));
    LastUpdateStays(y.streams, i, y1.streams[i], end);
  }

  /** What is in a client's channel comes to the client, oldest first. */
  lemma ChannelReachesClient(y: Sys, i: nat)
    requires i < |y.streams| && y.streams[i].open && y.streams[i].consumer == Client
    requires y.streams[i].channel != [] && y.streams[i].wire == []
    ensures var s := y.streams[i];
            After(y, [Local(i, Transmit)] + [Local(i, Read)]) ==
            Some(With(y, i, s.(channel := s.channel[1..], tally := s.tally.(taken := s.tally.taken + 1)))
                 .(delivered := y.delivered + [s.channel[0]]))
  {
    var s := y.streams[i];
    var s1 := s.(channel := s.channel[1..], wire := [s.channel[0]], tally := s.tally.(taken := s.tally.taken + 1));
    assert [] + [s.channel[0]] == [s.channel[0]] && [s.channel[0]][1..] == [];
    AfterOne(y, Local(i, Transmit));
    Quiet(y, i, Transmit, s1);
    Extend(y, [Local(i, Transmit)], Local(i, Read));
    Happens(With(y, i, s1), i, Read, Effect(s1.(wire := []), Some(s.channel[0]), [], 0));
    hide After, Next;
    LastUpdateStays(y.streams, i, s1, s1.(wire := []));
  }

  /** A forward opens a new stream on the same queue, which only its worker reads. */
  lemma ForwardOpens(y: Sys, i: nat, w: nat)
    requires At(y, i, w, Ready)
    ensures var (s, j) := (y.streams[i], |y.streams|);
            Next(y, Forward(i, w)) ==
            Some(y.(streams := y.streams[i := Put(s, w, s.workers[w].(phase := Forwarding(j)))]
                               + [NewStream(s.queue, PopWorker, Popped(y.log, s.queue))]))
  {
    assert y.lost + [] == y.lost;
    assert y.orphans + seq(0, _ => y.streams[i].queue) == y.orphans;
  }

  /** A forwarding worker takes one message off the wire and leaves; the stream it read stays open until it is disconnected. */
  lemma ForwardBrings(y: Sys, i: nat, w: nat, j: nat)
    requires At(y, i, w, Forwarding(j)) && i != j < |y.streams|
    requires y.streams[j].open && y.streams[j].consumer == PopWorker && y.streams[j].wire != []
    ensures var (s, far) := (y.streams[i], y.streams[j]);
            Next(y, ForwardReceive(i, w)) ==
            Some(With(With(y, j, far.(wire := far.wire[1..], consumer := Gone)), i,
                      Put(s, w, s.workers[w].(phase := Holding(far.wire[0]))).(tally := s.tally.(obtained := s.tally.obtained + 1))))
  {
    var pulled := With(y, j, y.streams[j].(wire := y.streams[j].wire[1..], consumer := Gone));
    assert y.lost + [] == y.lost;
    assert y.orphans + seq(0, _ => y.streams[i].queue) == y.orphans;
    assert y.orphans + seq(0, _ => y.streams[j].queue) == y.orphans;
    assert Act(y, j, Pull) == Some(pulled);
    assert pulled.streams[i] == y.streams[i];
  }

  /** A forwarding worker that gives up is ready again; what it had read from has nobody to read it any more. */
  lemma GivingUpStartsOver(y: Sys, i: nat, w: nat, j: nat)
    requires At(y, i, w, Forwarding(j)) && i != j < |y.streams|
    ensures var s := y.streams[i];
            Next(y, GiveUp(i, w)) ==
            Some(With(With(y, j, y.streams[j].(consumer := Gone)), i, Put(s, w, s.workers[w].(phase := Ready))))
  {
    var left := With(y, j, y.streams[j].(consumer := Gone));
    assert y.lost + [] == y.lost;
    assert y.orphans + seq(0, _ => y.streams[i].queue) == y.orphans;
    assert y.orphans + seq(0, _ => y.streams[j].queue) == y.orphans;
    assert Act(y, j, Leave) == Some(left);
    assert left.streams[i] == y.streams[i];
  }

  // Workers of an open stream are alive.

  ghost predicate Lively(s: Stream) {
    s.open ==> forall w | 0 <= w < |s.workers| :: !s.workers[w].phase.Stopped?
  }

  ghost predicate AllLively(ss: seq<Stream>) {
    forall i | 0 <= i < |ss| :: Lively(ss[i])
  }

  lemma LivelyLocal(s: Stream, ev: Event)
    requires Lively(s) && LocalStep(s, ev).Some?
    ensures Lively(LocalStep(s, ev).value.stream)
  {
    var s' := LocalStep(s, ev).value.stream;
    OnlyCloses(s, ev);
    if s'.open {
      forall w | 0 <= w < |s'.workers| ensures !s'.workers[w].phase.Stopped? {
        LengthKept(s, ev);
        StopsIff(s, ev, w);
      }
    }
  }

  lemma LengthKept(s: Stream, ev: Event)
    requires LocalStep(s, ev).Some?
    ensures |LocalStep(s, ev).value.stream.workers| == |s.workers|
  {
  }

  lemma OnlyCloses(s: Stream, ev: Event)
    requires LocalStep(s, ev).Some?
    ensures LocalStep(s, ev).value.stream.open <==> s.open && !ev.Disconnect? && !ev.Die?
    ensures ev.SendFails? ==> !s.open
  {
  }

  lemma LivelyAct(y: Sys, i: nat, ev: Event)
    requires AllLively(y.streams) && Act(y, i, ev).Some?
    ensures AllLively(Act(y, i, ev).value.streams)
  {
    LivelyLocal(y.streams[i], ev);
    hide LocalStep, Lively;
  }

  lemma LivelyNext(y: Sys, a: Action)
    requires AllLively(y.streams) && Next(y, a).Some?
    ensures AllLively(Next(y, a).value.streams)
  {
    hide LocalStep, AllLively;
    match a
    case Subscribe(q) => LivelyMore(y.streams, q, Client, Popped(y.log, q));
    case Local(i, ev) => LivelyAct(y, i, ev);
    case CommitPop(i, w, id) => LivelyAct(y, i, Committed(w, Answer(y.log, y.streams[i].queue, id)));
    case Forward(i, w) =>
      LivelyAct(y, i, Redirect(w, |y.streams|));
      var q := y.streams[i].queue;
      LivelyMore(Act(y, i, Redirect(w, |y.streams|)).value.streams, q, PopWorker, Popped(y.log, q));
    case ForwardReceive(i, w) =>
      var j := Reading(y, i, w).value;
      PullActs(y, j);
      LivelyAct(y, j, Pull);
      LivelyAct(Act(y, j, Pull).value, i, Obtain(w, y.streams[j].wire[0]));
    case GiveUp(i, w) =>
      var j := Reading(y, i, w).value;
      LeaveActs(y, j);
      LivelyAct(y, j, Leave);
      LivelyAct(Act(y, j, Leave).value, i, Retry(w));
    case _ =>
  }

  lemma LivelyMore(ss: seq<Stream>, q: string, c: Consumer, born: nat)
    requires AllLively(ss)
    ensures AllLively(ss + [NewStream(q, c, born)])
  {
  }

  lemma {:induction false} LivelyRun(y: Sys, acts: seq<Action>)
    requires AllLively(y.streams) && After(y, acts).Some?
    ensures AllLively(After(y, acts).value.streams)
    decreases |acts|
  {
    hide Next, AllLively;
    if acts != [] {
      LivelyNext(y, acts[0]);
      LivelyRun(Next(y, acts[0]).value, acts[1..]);
    }
  }

  /** In every run, as long as a stream is open none of its 32 workers has stopped. */
  lemma OpenStreamsKeepTheirWorkers(acts: seq<Action>, i: nat, w: nat)
    requires After(IDLE, acts).Some? && i < |After(IDLE, acts).value.streams|
    requires After(IDLE, acts).value.streams[i].open && w < 32
    ensures var s := After(IDLE, acts).value.streams[i];
            |s.workers| == 32 && !s.workers[w].phase.Stopped?
  {
    Reached(acts);
    LivelyRun(IDLE, acts);
    assert Lively(After(IDLE, acts).value.streams[i]);
  }

  // Proposals.

  function Waiting(ss: seq<Stream>, n: nat): nat
    requires n <= |ss|
  {
    if n == 0 then 0 else Waiting(ss, n - 1) + CountIf(ss[n - 1].workers, |ss[n - 1].workers|, IsWaiting)
  }

  /** Pop proposals that may still commit: those a worker waits for, and those nobody waits for. */
  function Outstanding(y: Sys): nat {
    Waiting(y.streams, |y.streams|) + |y.orphans|
  }

  lemma {:induction false} WaitingAfter(ss: seq<Stream>, i: nat, s: Stream, n: nat)
    requires i < |ss| && n <= |ss|
    ensures var (was, now) := (CountIf(ss[i].workers, |ss[i].workers|, IsWaiting), CountIf(s.workers, |s.workers|, IsWaiting));
            Waiting(ss[i := s], n) + (if i < n then was else 0) == Waiting(ss, n) + (if i < n then now else 0)
  {
    if n > 0 {
      WaitingAfter(ss, i, s, n - 1);
    }
  }

  lemma {:induction false} WaitingSame(ss: seq<Stream>, ss': seq<Stream>, n: nat)
    requires n <= |ss| && n <= |ss'| && forall k | 0 <= k < n :: ss[k] == ss'[k]
    ensures Waiting(ss, n) == Waiting(ss', n)
  {
    if n > 0 {
      WaitingSame(ss, ss', n - 1);
    }
  }

  lemma OutstandingAct(y: Sys, i: nat, ev: Event)
    requires Act(y, i, ev).Some?
    ensures Outstanding(Act(y, i, ev).value) + (if ev.Committed? then 1 else 0)
            == Outstanding(y) + (if ev.Propose? then 1 else 0)
  {
    ProposalsKept(y.streams[i], ev);
    WaitingAfter(y.streams, i, LocalStep(y.streams[i], ev).value.stream, |y.streams|);
    hide LocalStep, Waiting, CountIf;
  }

  lemma OutstandingMore(y: Sys, q: string, c: Consumer, born: nat)
    ensures Outstanding(y.(streams := y.streams + [NewStream(q, c, born)])) == Outstanding(y)
  {
    WaitingSame(y.streams, y.streams + [NewStream(q, c, born)], |y.streams|);
    var ws := NewStream(q, c, born).workers;
    CountAll(ws, |ws|, IsWaiting);
  }

  /** No proposal appears or vanishes by itself: workers make them, and only by committing do they go, waited for or not. */
  lemma ProposalsConserved(y: Sys, a: Action)
    requires Next(y, a).Some?
    ensures Outstanding(Next(y, a).value) + (if a.CommitPop? || a.CommitOrphan? then 1 else 0)
            == Outstanding(y) + (if a.Local? && a.ev.Propose? then 1 else 0)
  {
    hide LocalStep, Waiting;
    match a
    case Subscribe(q) => OutstandingMore(y, q, Client, Popped(y.log, q));
    case Local(i, ev) => OutstandingAct(y, i, ev);
    case CommitPop(i, w, id) => OutstandingAct(y, i, Committed(w, Answer(y.log, y.streams[i].queue, id)));
    case Forward(i, w) =>
      OutstandingAct(y, i, Redirect(w, |y.streams|));
      var q := y.streams[i].queue;
      OutstandingMore(Act(y, i, Redirect(w, |y.streams|)).value, q, PopWorker, Popped(y.log, q));
    case ForwardReceive(i, w) =>
      var j := Reading(y, i, w).value;
      PullActs(y, j);
      OutstandingAct(y, j, Pull);
      OutstandingAct(Act(y, j, Pull).value, i, Obtain(w, y.streams[j].wire[0]));
    case GiveUp(i, w) =>
      var j := Reading(y, i, w).value;
      LeaveActs(y, j);
      OutstandingAct(y, j, Leave);
      OutstandingAct(Act(y, j, Leave).value, i, Retry(w));
    case _ =>
  }
}

/**
  The consume protocol: any number of streams over the committed log of the queue
  group. Messages move between the queue, workers, channels, wires, clients, and loss.
 */
module Consume {
  import opened Wrappers
  import opened Types
  import opened QueueModel
  import opened QueueHistory
  import opened ConsumeStream

  /**
    `orphans` are pop proposals whose worker no longer waits for them but which may
    still commit. Streams at any node are in `streams`; none is ever removed.
   */
  datatype Sys = Sys(
    log: seq<QueueEntry>, streams: seq<Stream>, orphans: seq<string>, delivered: seq<Token>, lost: seq<Token>)

  datatype Action =
    | Commit(e: QueueEntry)
    | Subscribe(queue: string)
    | Local(i: nat, ev: Event)
    | CommitPop(i: nat, w: nat, id: LogId)
    | CommitOrphan(k: nat, id: LogId)
    | Forward(i: nat, w: nat)
    | ForwardReceive(i: nat, w: nat)
    | GiveUp(i: nat, w: nat)

  const IDLE := Sys([], [], [], [], [])

  function PopEntry(q: string, id: LogId): QueueEntry {
    Entry(id, Normal(QueueRequest.Pop(q)))
  }

  /** The message that the state machine's answer to the next pop of `q` carries. */
  function Answer(log: seq<QueueEntry>, q: string, id: LogId): Option<Token> {
    var popped := EntryResponse(Replay(log), PopEntry(q, id)).popped;
    if popped.Some? then Some(Token(q, popped.value)) else None
  }

  function Apply(y: Sys, i: nat, e: Effect): Sys
    requires i < |y.streams|
  {
    y.(streams := y.streams[i := e.stream], lost := y.lost + e.lost,
       orphans := y.orphans + seq(e.orphans, _ => y.streams[i].queue))
  }

  /** One event at one stream. */
  function Act(y: Sys, i: nat, ev: Event): Option<Sys> {
    if i < |y.streams| && LocalStep(y.streams[i], ev).Some?
    then Some(Apply(y, i, LocalStep(y.streams[i], ev).value)) else None
  }

  predicate Alone(ev: Event) {
    ev.Propose? || ev.RespondOk? || ev.RespondErr? || ev.Send? || ev.SendFails? ||
    ev.Transmit? || ev.Read? || ev.Disconnect? || ev.Die?
  }

  /** Log indexes are 64-bit. */
  predicate Room(y: Sys) {
    |y.log| + 1 < U64
  }

  /** The outcome of an action, or `None` where it cannot happen. */
  function Next(y: Sys, a: Action): Option<Sys> {
    match a
    case Commit(e) =>
      if !Room(y) || (e.payload.Normal? && e.payload.data.Pop?) then None else Some(y.(log := y.log + [e]))
    case Subscribe(q) =>
      Some(y.(streams := y.streams + [NewStream(q, Client, Popped(y.log, q))]))
    case Local(i, ev) =>
      var next := Act(y, i, ev);
      if next.None? || !Alone(ev) then None
      else Some(next.value.(delivered := y.delivered + AsSeq(Out(y.streams[i], ev))))
    case CommitPop(i, w, id) =>
      if Room(y) && i < |y.streams| then
        var q := y.streams[i].queue;
        var next := Act(y, i, Committed(w, Answer(y.log, q, id)));
        if next.None? then None else Some(next.value.(log := y.log + [PopEntry(q, id)]))
      else None
    case CommitOrphan(k, id) =>
      if Room(y) && k < |y.orphans| then
        var q := y.orphans[k];
        Some(y.(log := y.log + [PopEntry(q, id)], lost := y.lost + AsSeq(Answer(y.log, q, id)),
                orphans := y.orphans[..k] + y.orphans[k + 1..]))
      else None
    case Forward(i, w) =>
      var moved := Act(y, i, Redirect(w, |y.streams|));
      if moved.None? then None else
        var q := y.streams[i].queue;
        Some(moved.value.(streams := moved.value.streams + [NewStream(q, PopWorker, Popped(y.log, q))]))
    case ForwardReceive(i, w) =>
      if Reading(y, i, w).None? then None else
        var j := Reading(y, i, w).value;
        var pulled := Act(y, j, Pull);
        if pulled.None? then None else Act(pulled.value, i, Obtain(w, y.streams[j].wire[0]))
    case GiveUp(i, w) =>
      if Reading(y, i, w).None? then None else
        Act(Act(y, Reading(y, i, w).value, Leave).value, i, Retry(w))
  }

  /** The stream that a forwarding worker reads. */
  function Reading(y: Sys, i: nat, w: nat): Option<nat> {
    if i < |y.streams| && w < |y.streams[i].workers| && y.streams[i].workers[w].phase.Forwarding?
       && y.streams[i].workers[w].phase.to < |y.streams| && y.streams[i].workers[w].phase.to != i
    then Some(y.streams[i].workers[w].phase.to) else None
  }

  function After(y: Sys, acts: seq<Action>): Option<Sys>
    decreases |acts|
  {
    if acts == [] then Some(y) else
      var next := Next(y, acts[0]);
      if next.None? then None else After(next.value, acts[1..])
  }

  // Conservation.

  function InStreams(ss: seq<Stream>, n: nat, t: Token): nat
    requires n <= |ss|
  {
    if n == 0 then 0 else InStreams(ss, n - 1, t) + Inside(ss[n - 1], t)
  }

  /** How often `t` is anywhere outside its queue. */
  function Outside(y: Sys, t: Token): nat {
    InStreams(y.streams, |y.streams|, t) + Count(y.delivered, t) + Count(y.lost, t)
  }

  /** How often `t` was popped. */
  function PoppedCount(log: seq<QueueEntry>, t: Token): nat {
    multiset(Published(log, t.queue)[..Popped(log, t.queue)])[t.msg]
  }

  ghost predicate Conserved(y: Sys) {
    forall t :: Outside(y, t) == PoppedCount(y.log, t)
  }

  lemma {:induction false} StreamsAfter(ss: seq<Stream>, i: nat, s: Stream, n: nat, t: Token)
    requires i < |ss| && n <= |ss|
    ensures InStreams(ss[i := s], n, t) + (if i < n then Inside(ss[i], t) else 0)
            == InStreams(ss, n, t) + (if i < n then Inside(s, t) else 0)
  {
    if n > 0 {
      StreamsAfter(ss, i, s, n - 1, t);
    }
  }

  lemma {:induction false} StreamsSame(ss: seq<Stream>, ss': seq<Stream>, n: nat, t: Token)
    requires n <= |ss| && n <= |ss'| && forall k | 0 <= k < n :: ss[k] == ss'[k]
    ensures InStreams(ss, n, t) == InStreams(ss', n, t)
  {
    if n > 0 {
      StreamsSame(ss, ss', n - 1, t);
    }
  }

  lemma ActConserves(y: Sys, i: nat, ev: Event, t: Token)
    requires Act(y, i, ev).Some?
    ensures Outside(Act(y, i, ev).value, t) + One(Out(y.streams[i], ev), t) == Outside(y, t) + One(Brought(ev), t)
  {
    var e := LocalStep(y.streams[i], ev).value;
    LocalConserves(y.streams[i], ev, t);
    StreamsAfter(y.streams, i, e.stream, |y.streams|, t);
    CountConcat(y.lost, e.lost, t);
  }

  lemma PullActs(y: Sys, j: nat)
    requires Act(y, j, Pull).Some?
    ensures y.streams[j].wire != [] && Out(y.streams[j], Pull) == Some(y.streams[j].wire[0])
  {
  }

  lemma LeaveActs(y: Sys, j: nat)
    requires j < |y.streams|
    ensures Act(y, j, Leave).Some?
  {
  }

  lemma NewStreamEmpty(q: string, c: Consumer, born: nat, t: Token)
    ensures Inside(NewStream(q, c, born), t) == 0
  {
    var ws := NewStream(q, c, born).workers;
    forall k | 0 <= k < |ws| ensures !Has(t)(ws[k]) {
    }
    CountAll(ws, |ws|, Has(t));
  }

  lemma AddStream(y: Sys, s: Stream, t: Token)
    requires Inside(s, t) == 0
    ensures Outside(y.(streams := y.streams + [s]), t) == Outside(y, t)
  {
    StreamsSame(y.streams, y.streams + [s], |y.streams|, t);
  }

  /** The answer to a pop is the oldest message not popped yet. */
  lemma AnswerIsOldest(log: seq<QueueEntry>, q: string, id: LogId)
    ensures Answer(log, q, id) ==
            if Popped(log, q) < |Published(log, q)| then Some(Token(q, Published(log, q)[Popped(log, q)])) else None
  {
    StateIsHistory(log, q);
  }

  lemma CountNext(h: seq<Message>, n: nat, m: Message)
    requires n < |h|
    ensures multiset(h[..n + 1])[m] == multiset(h[..n])[m] + (if h[n] == m then 1 else 0)
  {
    assert h[..n + 1] == h[..n] + [h[n]];
  }

  /** A committed pop adds exactly its answer to what was popped. */
  lemma PopCounts(log: seq<QueueEntry>, q: string, id: LogId, t: Token)
    ensures PoppedCount(log + [PopEntry(q, id)], t) == PoppedCount(log, t) + One(Answer(log, q, id), t)
  {
    HistorySnoc(log, PopEntry(q, id), t.queue);
    AnswerIsOldest(log, q, id);
    if q == t.queue && Popped(log, q) < |Published(log, q)| {
      CountNext(Published(log, q), Popped(log, q), t.msg);
    }
  }

  lemma OtherCounts(log: seq<QueueEntry>, e: QueueEntry, t: Token)
    requires !(e.payload.Normal? && e.payload.data.Pop?)
    ensures PoppedCount(log + [e], t) == PoppedCount(log, t)
  {
    var n := Popped(log, t.queue);
    HistorySnoc(log, e, t.queue);
    assert Published(log + [e], t.queue)[..n] == Published(log, t.queue)[..n];
  }

  lemma LocalActionConserves(y: Sys, i: nat, ev: Event, t: Token)
    requires Next(y, Local(i, ev)).Some?
    ensures Outside(Next(y, Local(i, ev)).value, t) == Outside(y, t)
  {
    hide LocalStep, InStreams, Count;
    ActConserves(y, i, ev, t);
    CountOption(y.delivered, Out(y.streams[i], ev), t);
  }

  lemma CommitPopConserves(y: Sys, i: nat, w: nat, id: LogId, t: Token)
    requires Next(y, CommitPop(i, w, id)).Some?
    ensures var y' := Next(y, CommitPop(i, w, id)).value;
            Outside(y', t) - PoppedCount(y'.log, t) == Outside(y, t) - PoppedCount(y.log, t)
  {
    hide LocalStep, InStreams, Count;
    var q := y.streams[i].queue;
    ActConserves(y, i, Committed(w, Answer(y.log, q, id)), t);
    PopCounts(y.log, q, id, t);
  }

  lemma CommitOrphanConserves(y: Sys, k: nat, id: LogId, t: Token)
    requires Next(y, CommitOrphan(k, id)).Some?
    ensures var y' := Next(y, CommitOrphan(k, id)).value;
            Outside(y', t) - PoppedCount(y'.log, t) == Outside(y, t) - PoppedCount(y.log, t)
  {
    hide InStreams, Count, PoppedCount, Answer;
    CountOption(y.lost, Answer(y.log, y.orphans[k], id), t);
    PopCounts(y.log, y.orphans[k], id, t);
  }

  lemma ForwardConserves(y: Sys, i: nat, w: nat, t: Token)
    requires Next(y, Forward(i, w)).Some?
    ensures Outside(Next(y, Forward(i, w)).value, t) == Outside(y, t)
  {
    hide LocalStep, InStreams, Count;
    var ev, s := Redirect(w, |y.streams|), NewStream(y.streams[i].queue, PopWorker, Popped(y.log, y.streams[i].queue));
    ActConserves(y, i, ev, t);
    NewStreamEmpty(s.queue, PopWorker, s.born, t);
    AddStream(Act(y, i, ev).value, s, t);
  }

  lemma ForwardReceiveConserves(y: Sys, i: nat, w: nat, t: Token)
    requires Next(y, ForwardReceive(i, w)).Some?
    ensures Outside(Next(y, ForwardReceive(i, w)).value, t) == Outside(y, t)
  {
    hide LocalStep, InStreams, Count;
    var j := Reading(y, i, w).value;
    PullActs(y, j);
    ActConserves(y, j, Pull, t);
    ActConserves(Act(y, j, Pull).value, i, Obtain(w, y.streams[j].wire[0]), t);
  }

  lemma GiveUpConserves(y: Sys, i: nat, w: nat, t: Token)
    requires Next(y, GiveUp(i, w)).Some?
    ensures Outside(Next(y, GiveUp(i, w)).value, t) == Outside(y, t)
    ensures Next(y, GiveUp(i, w)).value.log == y.log
  {
    hide LocalStep, InStreams, Count;
    LeaveActs(y, Reading(y, i, w).value);
    ActConserves(y, Reading(y, i, w).value, Leave, t);
    ActConserves(Act(y, Reading(y, i, w).value, Leave).value, i, Retry(w), t);
  }

  lemma NextConserves(y: Sys, a: Action, t: Token)
    requires Outside(y, t) == PoppedCount(y.log, t) && Next(y, a).Some?
    ensures Outside(Next(y, a).value, t) == PoppedCount(Next(y, a).value.log, t)
  {
    hide LocalStep, InStreams, Count;
    match a
    case Commit(e) => OtherCounts(y.log, e, t);
    case Subscribe(q) =>
      NewStreamEmpty(q, Client, Popped(y.log, q), t);
      AddStream(y, NewStream(q, Client, Popped(y.log, q)), t);
    case Local(i, ev) => LocalActionConserves(y, i, ev, t);
    case CommitPop(i, w, id) => CommitPopConserves(y, i, w, id, t);
    case CommitOrphan(k, id) => CommitOrphanConserves(y, k, id, t);
    case Forward(i, w) => ForwardConserves(y, i, w, t);
    case ForwardReceive(i, w) => ForwardReceiveConserves(y, i, w, t);
    case GiveUp(i, w) => GiveUpConserves(y, i, w, t);
  }
}

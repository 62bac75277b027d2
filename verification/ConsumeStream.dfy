/**
  One consume stream: its pop workers, the bounded channel they share, and the
  wire to whoever reads the stream. Each step of the code is one event.
 */
module ConsumeStream {
  import opened Wrappers
  import opened Types

  const POP_CONCURRENCY: nat := 32
  const CAPACITY: nat := POP_CONCURRENCY * 4

  /** A popped message and the queue it came from. */
  datatype Token = Token(queue: string, msg: Message)

  /**
    Where a worker's loop stands: about to propose, waiting for its proposal, the
    response on its way, reading a forwarded stream, about to send, or returned.
   */
  datatype Phase =
    | Ready
    | Proposed
    | Answered(popped: Option<Token>)
    | Forwarding(to: nat)
    | Holding(token: Token)
    | Stopped

  /** `sent` records the offsets the worker has put into the channel. */
  datatype Worker = Worker(phase: Phase, sent: seq<u64>)

  /** Who reads the stream: a client, a forwarding worker of another stream, or nobody any more. */
  datatype Consumer = Client | PopWorker | Gone

  /**
    Counts over the stream's life: messages its workers obtained, messages taken
    from its channel, responses lost to errors, messages dropped with the channel,
    and messages lost in failed sends.
   */
  datatype Tally = Tally(obtained: nat, taken: nat, errored: nat, dropped: nat, failed: nat)

  /** `open` is the receiver's end; `born` is how many messages of the queue were popped before the stream began. */
  datatype Stream = Stream(
    queue: string, consumer: Consumer, open: bool, workers: seq<Worker>,
    channel: seq<Token>, wire: seq<Token>, born: nat, tally: Tally)

  function NewStream(queue: string, consumer: Consumer, born: nat): Stream {
    Stream(queue, consumer, true, seq(POP_CONCURRENCY, _ => Worker(Ready, [])), [], [], born, Tally(0, 0, 0, 0, 0))
  }

  datatype Event =
    | Propose(w: nat)
    | Committed(w: nat, popped: Option<Token>)
    | RespondOk(w: nat)
    | RespondErr(w: nat)
    | Redirect(w: nat, to: nat)
    | Retry(w: nat)
    | Obtain(w: nat, token: Token)
    | Send(w: nat)
    | SendFails(w: nat)
    | Transmit
    | Read
    | Pull
    | Leave
    | Disconnect
    | Die

  /** What an event does: the stream after it, the token read from the wire, tokens lost, and proposals left without a worker. */
  datatype Effect = Effect(stream: Stream, out: Option<Token>, lost: seq<Token>, orphans: nat)

  function Close(s: Stream): Stream {
    s.(open := false, channel := [], wire := [], tally := s.tally.(dropped := s.tally.dropped + |s.channel|))
  }

  /** The message a worker has in hand. */
  function Held(w: Worker): Option<Token> {
    match w.phase
    case Answered(popped) => popped
    case Holding(token) => Some(token)
    case _ => None
  }

  function AsSeq(o: Option<Token>): seq<Token> {
    if o.Some? then [o.value] else []
  }

  /** What the first `n` workers have in hand. */
  function HeldBy(ws: seq<Worker>, n: nat): seq<Token>
    requires n <= |ws|
  {
    if n == 0 then [] else HeldBy(ws, n - 1) + AsSeq(Held(ws[n - 1]))
  }

  function InHand(s: Stream): seq<Token> {
    HeldBy(s.workers, |s.workers|)
  }

  function CountIf(ws: seq<Worker>, n: nat, p: Worker -> bool): (c: nat)
    requires n <= |ws|
    ensures c <= n
  {
    if n == 0 then 0 else CountIf(ws, n - 1, p) + (if p(ws[n - 1]) then 1 else 0)
  }

  predicate IsWaiting(w: Worker) { w.phase.Proposed? }

  predicate IsBusy(w: Worker) { Held(w).Some? }

  predicate IsStopped(w: Worker) { w.phase.Stopped? }

  function Has(t: Token): Worker -> bool {
    (w: Worker) => Held(w) == Some(t)
  }

  predicate WorkerEvent(ev: Event) {
    !ev.Transmit? && !ev.Read? && !ev.Pull? && !ev.Leave? && !ev.Disconnect? && !ev.Die?
  }

  /** One step of a worker's loop: the worker after it, what it sent or lost, and the stream's counts. */
  datatype Change = Change(now: Worker, sent: Option<Token>, lost: Option<Token>, orphans: nat, tally: Tally)

  /** `room` tells whether the receiver is there and the channel has space. */
  function WorkerStep(worker: Worker, ev: Event, open: bool, room: bool, t: Tally): Option<Change>
    requires WorkerEvent(ev)
  {
    var phase := worker.phase;
    match ev
    case Propose(_) =>
      if phase.Ready? then Some(Change(worker.(phase := Proposed), None, None, 0, t)) else None
    case Committed(_, popped) =>
      if phase.Proposed? then
        var t' := if popped.Some? then t.(obtained := t.obtained + 1) else t;
        Some(Change(worker.(phase := Answered(popped)), None, None, 0, t'))
      else None
    case RespondOk(_) =>
      if phase.Answered? then
        var next := if phase.popped.Some? then Holding(phase.popped.value) else Ready;
        Some(Change(worker.(phase := next), None, None, 0, t))
      else None
    case RespondErr(_) =>
      if phase.Proposed? then Some(Change(worker.(phase := Ready), None, None, 1, t))
      else if phase.Answered? then
        var t' := if phase.popped.Some? then t.(errored := t.errored + 1) else t;
        Some(Change(worker.(phase := Ready), None, phase.popped, 0, t'))
      else None
    case Redirect(_, to) =>
      if phase.Ready? then Some(Change(worker.(phase := Forwarding(to)), None, None, 0, t)) else None
    case Retry(_) =>
      if phase.Forwarding? then Some(Change(worker.(phase := Ready), None, None, 0, t)) else None
    case Obtain(_, token) =>
      if phase.Forwarding? then
        Some(Change(worker.(phase := Holding(token)), None, None, 0, t.(obtained := t.obtained + 1)))
      else None
    case Send(_) =>
      if phase.Holding? && room then
        Some(Change(Worker(Ready, worker.sent + [phase.token.msg.offset]), Some(phase.token), None, 0, t))
      else None
    case SendFails(_) =>
      if phase.Holding? && !open then
        Some(Change(worker.(phase := Stopped), None, Some(phase.token), 0, t.(failed := t.failed + 1)))
      else None
  }

  function StopAll(ws: seq<Worker>): (dead: seq<Worker>)
    ensures |dead| == |ws| && forall k | 0 <= k < |ws| :: dead[k] == ws[k].(phase := Stopped)
  {
    seq(|ws|, k requires 0 <= k < |ws| => ws[k].(phase := Stopped))
  }

  /** The stream of a process that died: nobody reads it, and its workers are gone with what they held. */
  function Dead(s: Stream): Stream {
    var tally := Close(s).tally;
    Close(s).(workers := StopAll(s.workers), tally := tally.(failed := tally.failed + |InHand(s)|))
  }

  function LocalStep(s: Stream, ev: Event): Option<Effect> {
    match ev
    case Transmit =>
      if s.open && s.channel != [] then
        var t' := s.tally.(taken := s.tally.taken + 1);
        Some(Effect(s.(channel := s.channel[1..], wire := s.wire + [s.channel[0]], tally := t'), None, [], 0))
      else None
    case Read =>
      if s.open && s.consumer.Client? && s.wire != [] then
        Some(Effect(s.(wire := s.wire[1..]), Some(s.wire[0]), [], 0))
      else None
    case Pull =>
      // A forwarding worker reads one message and drops its end; the workers go on until the disconnect.
      if s.open && s.consumer.PopWorker? && s.wire != [] then
        Some(Effect(s.(wire := s.wire[1..], consumer := Gone), Some(s.wire[0]), [], 0))
      else None
    case Leave => Some(Effect(s.(consumer := Gone), None, [], 0))
    case Disconnect => Some(Effect(Close(s), None, s.wire + s.channel, 0))
    case Die => Some(Effect(Dead(s), None, s.wire + s.channel + InHand(s), CountIf(s.workers, |s.workers|, IsWaiting)))
    case _ =>
      if ev.w < |s.workers| then
        var room := s.open && |s.channel| < CAPACITY;
        match WorkerStep(s.workers[ev.w], ev, s.open, room, s.tally)
        case None => None
        case Some(c) => Some(Effect(Changed(s, ev.w, c), None, AsSeq(c.lost), c.orphans))
      else None
  }

  function Changed(s: Stream, w: nat, c: Change): Stream
    requires w < |s.workers|
  {
    s.(workers := s.workers[w := c.now],
       channel := if c.sent.Some? then s.channel + [c.sent.value] else s.channel,
       tally := c.tally)
  }

  /** The token an event hands to the stream's reader. */
  function Out(s: Stream, ev: Event): (o: Option<Token>)
    ensures LocalStep(s, ev).Some? ==> LocalStep(s, ev).value.out == o
    ensures o.Some? ==> ev.Read? || ev.Pull?
  {
    if (ev.Read? || ev.Pull?) && s.wire != [] then Some(s.wire[0]) else None
  }

  /** The token an event brings into the stream. */
  function Brought(ev: Event): Option<Token> {
    match ev
    case Committed(_, popped) => popped
    case Obtain(_, token) => Some(token)
    case _ => None
  }

  function One(o: Option<Token>, t: Token): nat {
    if o == Some(t) then 1 else 0
  }

  function Count(ts: seq<Token>, t: Token): nat {
    multiset(ts)[t]
  }

  /** How often `t` occurs inside the stream: held, in the channel, or on the wire. */
  function Inside(s: Stream, t: Token): nat {
    CountIf(s.workers, |s.workers|, Has(t)) + Count(s.channel, t) + Count(s.wire, t)
  }

  // Nothing is duplicated or forgotten: the count of each token is kept.

  lemma {:induction false} CountAfter(ws: seq<Worker>, w: nat, now: Worker, n: nat, p: Worker -> bool)
    requires w < |ws| && n <= |ws|
    ensures CountIf(ws[w := now], n, p) + (if w < n && p(ws[w]) then 1 else 0)
            == CountIf(ws, n, p) + (if w < n && p(now) then 1 else 0)
  {
    if n > 0 {
      CountAfter(ws, w, now, n - 1, p);
    }
  }

  lemma {:induction false} CountAll(ws: seq<Worker>, n: nat, p: Worker -> bool)
    requires n <= |ws|
    ensures (forall k | 0 <= k < |ws| :: !p(ws[k])) ==> CountIf(ws, n, p) == 0
    ensures (forall k | 0 <= k < |ws| :: p(ws[k])) ==> CountIf(ws, n, p) == n
  {
    if n > 0 {
      CountAll(ws, n - 1, p);
    }
  }

  lemma {:induction false} InHandCount(ws: seq<Worker>, n: nat, t: Token)
    requires n <= |ws|
    ensures Count(HeldBy(ws, n), t) == CountIf(ws, n, Has(t))
    ensures |HeldBy(ws, n)| == CountIf(ws, n, IsBusy)
  {
    if n > 0 {
      InHandCount(ws, n - 1, t);
      CountConcat(HeldBy(ws, n - 1), AsSeq(Held(ws[n - 1])), t);
    }
  }

  lemma WorkerConserves(worker: Worker, ev: Event, open: bool, room: bool, tally: Tally, t: Token)
    requires WorkerEvent(ev) && WorkerStep(worker, ev, open, room, tally).Some?
    ensures var c := WorkerStep(worker, ev, open, room, tally).value;
            One(Held(worker), t) + One(Brought(ev), t) == One(Held(c.now), t) + One(c.sent, t) + One(c.lost, t)
  {
  }

  lemma ChangeConserves(s: Stream, w: nat, c: Change, brought: nat, t: Token)
    requires w < |s.workers|
    requires One(Held(s.workers[w]), t) + brought == One(Held(c.now), t) + One(c.sent, t) + One(c.lost, t)
    ensures Inside(s, t) + brought == Inside(Changed(s, w, c), t) + One(c.lost, t)
  {
    CountAfter(s.workers, w, c.now, |s.workers|, Has(t));
    assert Count(Changed(s, w, c).channel, t) == Count(s.channel, t) + One(c.sent, t);
  }

  lemma CountHead(ts: seq<Token>, t: Token)
    requires ts != []
    ensures Count(ts, t) == One(Some(ts[0]), t) + Count(ts[1..], t)
  {
    assert ts == [ts[0]] + ts[1..];
  }

  lemma CountOption(ts: seq<Token>, o: Option<Token>, t: Token)
    ensures Count(ts + AsSeq(o), t) == Count(ts, t) + One(o, t)
  {
  }

  lemma CountConcat(a: seq<Token>, b: seq<Token>, t: Token)
    ensures Count(a + b, t) == Count(a, t) + Count(b, t)
  {
  }

  /** What was inside and what came in is now inside, read, or lost: each token once. */
  lemma LocalConserves(s: Stream, ev: Event, t: Token)
    requires LocalStep(s, ev).Some?
    ensures var e := LocalStep(s, ev).value;
            Inside(s, t) + One(Brought(ev), t) == Inside(e.stream, t) + One(e.out, t) + Count(e.lost, t)
  {
    if WorkerEvent(ev) {
      var room := s.open && |s.channel| < CAPACITY;
      hide WorkerStep, CountIf, Count;
      WorkerConserves(s.workers[ev.w], ev, s.open, room, s.tally, t);
      ChangeConserves(s, ev.w, WorkerStep(s.workers[ev.w], ev, s.open, room, s.tally).value, One(Brought(ev), t), t);
    } else {
      PlumbingConserves(s, ev, t);
    }
  }

  lemma PlumbingConserves(s: Stream, ev: Event, t: Token)
    requires !WorkerEvent(ev) && LocalStep(s, ev).Some?
    ensures var e := LocalStep(s, ev).value;
            Inside(s, t) == Inside(e.stream, t) + One(e.out, t) + Count(e.lost, t)
  {
    match ev
    case Transmit =>
      CountHead(s.channel, t);
      CountConcat(s.wire, [s.channel[0]], t);
    case Read => CountHead(s.wire, t);
    case Pull => CountHead(s.wire, t);
    case Leave =>
    case Disconnect => CountConcat(s.wire, s.channel, t);
    case Die => DeathConserves(s, t);
  }

  lemma DeathConserves(s: Stream, t: Token)
    ensures Inside(s, t) == Inside(Dead(s), t) + Count(s.wire + s.channel + InHand(s), t)
  {
    var dead := StopAll(s.workers);
    CountConcat(s.wire, s.channel, t);
    CountConcat(s.wire + s.channel, InHand(s), t);
    InHandCount(s.workers, |s.workers|, t);
    forall k | 0 <= k < |dead| ensures !Has(t)(dead[k]) {
    }
    CountAll(dead, |dead|, Has(t));
  }

  /** The events that lose `t`, and when they do. */
  predicate LosesToken(s: Stream, ev: Event, t: Token) {
    match ev
    case Disconnect => t in s.channel || t in s.wire
    case Die => Inside(s, t) > 0
    case SendFails(w) => !s.open && w < |s.workers| && s.workers[w].phase == Holding(t)
    case RespondErr(w) => w < |s.workers| && s.workers[w].phase == Answered(Some(t))
    case _ => false
  }

  lemma WorkerLossIff(w: Worker, ev: Event, open: bool, room: bool, tally: Tally, t: Token)
    requires WorkerEvent(ev) && WorkerStep(w, ev, open, room, tally).Some?
    ensures WorkerStep(w, ev, open, room, tally).value.lost == Some(t) <==>
              || (ev.SendFails? && !open && w.phase == Holding(t))
              || (ev.RespondErr? && w.phase == Answered(Some(t)))
  {
  }

  lemma DeathLossIff(s: Stream, t: Token)
    ensures Count(s.wire + s.channel + InHand(s), t) == Inside(s, t)
  {
    CountConcat(s.wire, s.channel, t);
    CountConcat(s.wire + s.channel, InHand(s), t);
    InHandCount(s.workers, |s.workers|, t);
  }

  lemma LocalLossIff(s: Stream, ev: Event, t: Token)
    requires LocalStep(s, ev).Some?
    ensures Count(LocalStep(s, ev).value.lost, t) > 0 <==> LosesToken(s, ev, t)
  {
    if WorkerEvent(ev) {
      var room := s.open && |s.channel| < CAPACITY;
      hide WorkerStep, CountIf;
      WorkerLossIff(s.workers[ev.w], ev, s.open, room, s.tally, t);
    } else if ev.Die? {
      DeathLossIff(s, t);
      hide Dead, Inside, Count, InHand, CountIf;
    }
  }

  // A worker loops until its send fails or its process dies.

  /** Whether a worker's phase admits an event; a send also needs the receiver and room, a failed send a closed channel. */
  predicate Admits(phase: Phase, ev: Event, open: bool, room: bool) {
    match phase
    case Ready => ev.Propose? || ev.Redirect?
    case Proposed => ev.Committed? || ev.RespondErr?
    case Answered(_) => ev.RespondOk? || ev.RespondErr?
    case Forwarding(_) => ev.Obtain? || ev.Retry?
    case Holding(_) => (ev.Send? && room) || (ev.SendFails? && !open)
    case Stopped => false
  }

  /** So a worker that is not stopped can always go on, at the latest when there is room in the channel or nobody behind it. */
  lemma EnabledIff(s: Stream, ev: Event)
    requires WorkerEvent(ev)
    ensures LocalStep(s, ev).Some? <==>
              ev.w < |s.workers| && Admits(s.workers[ev.w].phase, ev, s.open, s.open && |s.channel| < CAPACITY)
  {
  }

  /** A worker stops if and only if its send met a closed channel or its process died. */
  lemma StopsIff(s: Stream, ev: Event, w: nat)
    requires LocalStep(s, ev).Some? && w < |s.workers|
    ensures |LocalStep(s, ev).value.stream.workers| == |s.workers|
    ensures LocalStep(s, ev).value.stream.workers[w].phase.Stopped?
            <==> s.workers[w].phase.Stopped? || ev.Die? || ev == SendFails(w)
  {
  }

  /** What a worker does with what it is told: it holds a message it got, and starts over without one, whatever the reason. */
  lemma WorkerGoesOn(s: Stream, ev: Event)
    requires WorkerEvent(ev) && LocalStep(s, ev).Some?
    ensures var (was, now) := (s.workers[ev.w], LocalStep(s, ev).value.stream.workers[ev.w]);
            && (ev.RespondOk? && was.phase.popped.Some? ==> now.phase == Holding(was.phase.popped.value))
            && (ev.RespondOk? && was.phase.popped.None? ==> now.phase == Ready)
            && (ev.RespondErr? || ev.Retry? || ev.Send? ==> now.phase == Ready)
            && (ev.Propose? ==> now.phase == Proposed) && (ev.Redirect? ==> now.phase == Forwarding(ev.to))
            && (ev.Committed? ==> now.phase == Answered(ev.popped)) && (ev.Obtain? ==> now.phase == Holding(ev.token))
            && now.sent == (if ev.Send? then was.sent + [was.phase.token.msg.offset] else was.sent)
  {
  }

  /** Only the worker an event names changes, unless the process dies. */
  lemma OthersUntouched(s: Stream, ev: Event, w: nat)
    requires LocalStep(s, ev).Some? && w < |s.workers| && !ev.Die?
    requires WorkerEvent(ev) ==> ev.w != w
    ensures LocalStep(s, ev).value.stream.workers[w] == s.workers[w]
  {
  }

  /** Proposals that are out: a step puts one out, or one commits, or it goes on without its worker. */
  lemma ProposalsKept(s: Stream, ev: Event)
    requires LocalStep(s, ev).Some?
    ensures var e := LocalStep(s, ev).value;
            CountIf(e.stream.workers, |e.stream.workers|, IsWaiting) + e.orphans + (if ev.Committed? then 1 else 0)
            == CountIf(s.workers, |s.workers|, IsWaiting) + (if ev.Propose? then 1 else 0)
  {
    if WorkerEvent(ev) {
      var room := s.open && |s.channel| < CAPACITY;
      var c := WorkerStep(s.workers[ev.w], ev, s.open, room, s.tally).value;
      CountAfter(s.workers, ev.w, c.now, |s.workers|, IsWaiting);
      hide CountIf;
    } else if ev.Die? {
      var dead := StopAll(s.workers);
      forall k | 0 <= k < |dead| ensures !IsWaiting(dead[k]) {
      }
      CountAll(dead, |dead|, IsWaiting);
    }
  }

  // A stream never has more than 160 messages between its pops and its reader.

  ghost predicate TallyOk(s: Stream) {
    var n, tally := |s.workers|, s.tally;
    && n == POP_CONCURRENCY && |s.channel| <= CAPACITY && tally.dropped <= CAPACITY
    && (if s.open then tally.dropped == 0 else s.channel == [] && s.wire == [])
    && tally.failed <= CountIf(s.workers, n, IsStopped)
    && tally.obtained == tally.taken + tally.errored + tally.dropped + tally.failed + |s.channel| + CountIf(s.workers, n, IsBusy)
  }

  lemma {:induction false} BusyOrStopped(ws: seq<Worker>, n: nat)
    requires n <= |ws|
    ensures CountIf(ws, n, IsBusy) + CountIf(ws, n, IsStopped) <= n
  {
    if n > 0 {
      BusyOrStopped(ws, n - 1);
    }
  }

  /** 32 workers with one message each, and a channel of 128: over the whole life, disconnects included. */
  lemma InFlightBound(s: Stream)
    requires TallyOk(s)
    ensures s.tally.obtained <= s.tally.taken + s.tally.errored + POP_CONCURRENCY + CAPACITY
  {
    BusyOrStopped(s.workers, |s.workers|);
  }

  lemma WorkerTally(w: Worker, ev: Event, open: bool, room: bool, tally: Tally)
    requires WorkerEvent(ev) && WorkerStep(w, ev, open, room, tally).Some?
    ensures var c := WorkerStep(w, ev, open, room, tally).value;
            var (busy, busy') := (if IsBusy(w) then 1 else 0, if IsBusy(c.now) then 1 else 0);
            var (stopped, stopped') := (if IsStopped(w) then 1 else 0, if IsStopped(c.now) then 1 else 0);
            && c.tally.taken == tally.taken && c.tally.dropped == tally.dropped
            && c.tally.failed - tally.failed <= stopped' - stopped
            && c.tally.obtained - c.tally.errored - c.tally.failed - busy' - (if c.sent.Some? then 1 else 0)
               == tally.obtained - tally.errored - tally.failed - busy
            && (c.sent.Some? ==> room)
  {
  }

  lemma TallyKept(s: Stream, ev: Event)
    requires TallyOk(s) && LocalStep(s, ev).Some?
    ensures TallyOk(LocalStep(s, ev).value.stream)
  {
    var n := |s.workers|;
    if WorkerEvent(ev) {
      var room := s.open && |s.channel| < CAPACITY;
      WorkerTally(s.workers[ev.w], ev, s.open, room, s.tally);
      ChangeTally(s, ev.w, WorkerStep(s.workers[ev.w], ev, s.open, room, s.tally).value);
    } else if ev.Die? {
      DeathTally(s);
    }
  }

  lemma DeathTally(s: Stream)
    requires TallyOk(s)
    ensures TallyOk(Dead(s))
  {
    var n, dead := |s.workers|, StopAll(s.workers);
    BusyOrStopped(s.workers, n);
    InHandCount(s.workers, n, Token("", Message(0, [])));
    CountAll(dead, n, IsBusy);
    CountAll(dead, n, IsStopped);
  }

  lemma ChangeTally(s: Stream, w: nat, c: Change)
    requires TallyOk(s) && w < |s.workers|
    requires c.tally.taken == s.tally.taken && c.tally.dropped == s.tally.dropped
    requires c.tally.failed - s.tally.failed
             <= (if IsStopped(c.now) then 1 else 0) - (if IsStopped(s.workers[w]) then 1 else 0)
    requires c.tally.obtained - c.tally.errored - c.tally.failed - (if IsBusy(c.now) then 1 else 0)
             - (if c.sent.Some? then 1 else 0)
             == s.tally.obtained - s.tally.errored - s.tally.failed - (if IsBusy(s.workers[w]) then 1 else 0)
    requires c.sent.Some? ==> s.open && |s.channel| < CAPACITY
    ensures TallyOk(Changed(s, w, c))
  {
    CountAfter(s.workers, w, c.now, |s.workers|, IsBusy);
    CountAfter(s.workers, w, c.now, |s.workers|, IsStopped);
  }

  // Offsets only go up along each worker.

  predicate Increasing(os: seq<u64>) {
    forall i, j | 0 <= i < j < |os| :: os[i] < os[j]
  }

  predicate Below(os: seq<u64>, bound: nat) {
    forall i | 0 <= i < |os| :: os[i] < bound
  }

  predicate Within(t: Token, queue: string, lo: nat, hi: nat) {
    t.queue == queue && lo <= t.msg.offset < hi
  }

  predicate WorkerOrdered(w: Worker, queue: string, lo: nat, hi: nat) {
    && Increasing(w.sent) && Below(w.sent, hi)
    && (Held(w).Some? ==> Within(Held(w).value, queue, lo, hi) && Below(w.sent, Held(w).value.msg.offset))
  }

  predicate AllWithin(ts: seq<Token>, queue: string, lo: nat, hi: nat) {
    forall i | 0 <= i < |ts| :: Within(ts[i], queue, lo, hi)
  }

  /** `hi` messages of the queue have been popped so far; everything in the stream was popped since it began. */
  predicate Ordered(s: Stream, hi: nat) {
    && s.born <= hi
    && (forall w | 0 <= w < |s.workers| :: WorkerOrdered(s.workers[w], s.queue, s.born, hi))
    && AllWithin(s.channel, s.queue, s.born, hi) && AllWithin(s.wire, s.queue, s.born, hi)
  }

  lemma OrderedLater(s: Stream, hi: nat, later: nat)
    requires Ordered(s, hi) && hi <= later
    ensures Ordered(s, later)
  {
    forall w | 0 <= w < |s.workers| ensures WorkerOrdered(s.workers[w], s.queue, s.born, later) {
      assert WorkerOrdered(s.workers[w], s.queue, s.born, hi);
    }
  }

  /** A message that comes to a worker must be newer than all it sent. */
  predicate NewTo(s: Stream, ev: Event, hi: nat) {
    Brought(ev).Some? ==>
      && Within(Brought(ev).value, s.queue, s.born, hi)
      && (WorkerEvent(ev) && ev.w < |s.workers| ==> Below(s.workers[ev.w].sent, Brought(ev).value.msg.offset))
  }

  lemma WorkerStaysOrdered(w: Worker, ev: Event, open: bool, room: bool, tally: Tally, queue: string, lo: nat, hi: nat)
    requires WorkerEvent(ev) && WorkerStep(w, ev, open, room, tally).Some? && WorkerOrdered(w, queue, lo, hi)
    requires Brought(ev).Some? ==> Within(Brought(ev).value, queue, lo, hi) && Below(w.sent, Brought(ev).value.msg.offset)
    ensures var c := WorkerStep(w, ev, open, room, tally).value;
            && WorkerOrdered(c.now, queue, lo, hi)
            && (c.sent.Some? ==> Within(c.sent.value, queue, lo, hi))
  {
  }

  lemma ChangeOrdered(s: Stream, w: nat, c: Change, hi: nat)
    requires Ordered(s, hi) && w < |s.workers| && WorkerOrdered(c.now, s.queue, s.born, hi)
    requires c.sent.Some? ==> Within(c.sent.value, s.queue, s.born, hi)
    ensures Ordered(Changed(s, w, c), hi)
  {
  }

  lemma PlumbingOrdered(s: Stream, ev: Event, hi: nat)
    requires Ordered(s, hi) && !WorkerEvent(ev) && !ev.Die? && LocalStep(s, ev).Some?
    ensures Ordered(LocalStep(s, ev).value.stream, hi)
  {
    var s' := LocalStep(s, ev).value.stream;
    assert s'.workers == s.workers && s'.queue == s.queue && s'.born == s.born;
  }

  lemma DeathOrdered(s: Stream, hi: nat)
    requires Ordered(s, hi)
    ensures Ordered(Dead(s), hi)
  {
    forall w | 0 <= w < |s.workers| ensures WorkerOrdered(Dead(s).workers[w], s.queue, s.born, hi) {
      assert WorkerOrdered(s.workers[w], s.queue, s.born, hi);
    }
  }

  lemma OrderKept(s: Stream, ev: Event, hi: nat)
    requires Ordered(s, hi) && NewTo(s, ev, hi) && LocalStep(s, ev).Some?
    ensures Ordered(LocalStep(s, ev).value.stream, hi)
  {
    if WorkerEvent(ev) {
      var room := s.open && |s.channel| < CAPACITY;
      WorkerStaysOrdered(s.workers[ev.w], ev, s.open, room, s.tally, s.queue, s.born, hi);
      ChangeOrdered(s, ev.w, WorkerStep(s.workers[ev.w], ev, s.open, room, s.tally).value, hi);
    } else if ev.Die? {
      DeathOrdered(s, hi);
    } else {
      PlumbingOrdered(s, ev, hi);
    }
  }
}

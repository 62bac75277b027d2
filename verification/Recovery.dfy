/**
  A whole queue node: its durable log, its in-memory state machine, and crashes at
  any point, after which the state is rebuilt from the log up to the committed id.
  Nothing is purged: a restarted node has no snapshot to start from.
 */
module Recovery {
  import opened Wrappers
  import opened Types
  import opened RaftEngine
  import opened LogStore
  import opened LogRefinement
  import opened QueueModel
  import opened QueueHistory

  /** A response that left the node: the entry it answers, and what it said. */
  datatype Answer = Answer(index: nat, response: QueueResponse)

  /** `answers` outlives crashes: it is what clients were told in all lives of the process. */
  datatype Life = Life(store: Store<QueueRequest>, replica: QueueReplica, applied: nat, answers: seq<Answer>)

  datatype Event =
    | LogCall(op: Op<QueueRequest>)
    | ApplyUpTo(end: nat)
    | CrashAndReopen(keep: nat)

  /** The committed prefix of the log. */
  function CommittedPrefix(n: Life): seq<QueueEntry> {
    var l := n.store.log;
    if l.committed.Some? && l.committed.value.index < |l.history| then l.history[..l.committed.value.index + 1] else []
  }

  ghost predicate MayHappen(n: Life, ev: Event) {
    match ev
    case LogCall(op) =>
      && Allowed(n.store, op) && !op.MarkPurged? && !op.Compact? && !op.PurgePast? && !op.Crash?
      && (op.SaveCommitted? && op.committed.Some? ==> op.committed.value.index + 1 < U64)
    case ApplyUpTo(end) => n.applied <= end <= |CommittedPrefix(n)|
    case CrashAndReopen(keep) => Allowed(n.store, Crash(keep))
  }

  /** What the log store hands out for `[from, end)`. */
  function Read(d: Disk<QueueRequest>, from: nat, end: nat): seq<QueueEntry>
    requires end < U64
  {
    if Sound(d) && from < end && Entries(d, Included(from), Excluded(end)).Ok?
    then Entries(d, Included(from), Excluded(end)).value else []
  }

  function AnswersFrom(rs: seq<QueueResponse>, from: nat): seq<Answer> {
    seq(|rs|, k requires 0 <= k < |rs| => Answer(from + k, rs[k]))
  }

  function Happen(n: Life, ev: Event): Life {
    match ev
    case LogCall(op) => n.(store := Step(n.store, op))
    case ApplyUpTo(end) =>
      if end >= U64 then n else
        var es := Read(n.store.disk, n.applied, end);
        n.(replica := Run(n.replica, es), applied := end,
           answers := n.answers + AnswersFrom(Responses(n.replica, es), n.applied))
    case CrashAndReopen(keep) => Life(Step(n.store, Crash(keep)), FRESH, 0, n.answers)
  }

  function After(n: Life, evs: seq<Event>): Life
    decreases |evs|
  {
    if evs == [] then n else After(Happen(n, evs[0]), evs[1..])
  }

  ghost predicate Disciplined(n: Life, evs: seq<Event>)
    decreases |evs|
  {
    evs == [] || (MayHappen(n, evs[0]) && Disciplined(Happen(n, evs[0]), evs[1..]))
  }

  const BORN := Life(NewStore(), FRESH, 0, [])

  /** What a restarted process rebuilds from its disk: fresh state, then every entry up to the committed id. */
  function Rebuild(d: Disk<QueueRequest>): Result<QueueReplica, StorageError>
    requires Sound(d)
  {
    var committed :- Committed(d);
    if committed.None? then Ok(FRESH) else
      var es :- Entries(d, Included(0), Excluded(Bump(committed.value.index)));
      Ok(Replay(es))
  }

  ghost predicate AnswersHold(answers: seq<Answer>, log: seq<QueueEntry>) {
    forall a | a in answers :: a.index < |log| && a.response == Responses(FRESH, log)[a.index]
  }

  ghost predicate Inv(n: Life) {
    && Refines(n.store) && n.store.log.lastPurged == None
    && |CommittedPrefix(n)| < U64
    && n.applied <= |CommittedPrefix(n)|
    && n.replica == Replay(CommittedPrefix(n)[..n.applied])
    && AnswersHold(n.answers, CommittedPrefix(n))
  }

  lemma LogCallKeeps(n: Life, op: Op<QueueRequest>)
    requires Inv(n) && MayHappen(n, LogCall(op))
    ensures Inv(Happen(n, LogCall(op)))
    ensures CommittedPrefix(n) <= CommittedPrefix(Happen(n, LogCall(op)))
  {
    hide Refines, Step, Allowed, Replay, AnswersHold;
    StepKeeps(n.store, op);
    LogGrows(n.store, op);
    GrownLogKeeps(n, Happen(n, LogCall(op)));
  }

  lemma GrownLogKeeps(n: Life, n': Life)
    requires Inv(n) && Refines(n'.store) && n'.store.log.lastPurged == None
    requires n' == n.(store := n'.store) && |CommittedPrefix(n')| < U64
    requires CommittedPrefixGrows(n.store.log, n'.store.log)
    ensures Inv(n') && CommittedPrefix(n) <= CommittedPrefix(n')
  {
    hide Refines, Replay;
    PrefixGrows(n, n');
    AnswersStillHold(n.answers, CommittedPrefix(n), CommittedPrefix(n'));
    assert CommittedPrefix(n')[..n.applied] == CommittedPrefix(n)[..n.applied];
  }

  ghost predicate CommittedPrefixGrows(l: SimpleLog<QueueRequest>, l': SimpleLog<QueueRequest>) {
    && CommitOk(l) && CommitOk(l')
    && (l.committed.Some? ==>
          && l'.committed.Some? && l.committed.value.index <= l'.committed.value.index
          && l.history[..l.committed.value.index + 1] <= l'.history)
  }

  /** No call but a purge gives up anything of the log up to the committed id. */
  lemma LogGrows(st: Store<QueueRequest>, op: Op<QueueRequest>)
    requires Refines(st) && Allowed(st, op) && !op.MarkPurged? && !op.PurgePast? && !op.Crash?
    ensures var (l, l') := (st.log, LogAfter(st, op));
            && CommittedPrefixGrows(l, l') && l'.lastPurged == l.lastPurged
            && l'.committed == (if op.SaveCommitted? then op.committed else l.committed)
  {
    OpMarks(st, op);
  }

  lemma PrefixGrows(n: Life, n': Life)
    requires CommittedPrefixGrows(n.store.log, n'.store.log)
    ensures CommittedPrefix(n) <= CommittedPrefix(n')
  {
  }

  lemma AnswersStillHold(answers: seq<Answer>, log: seq<QueueEntry>, log': seq<QueueEntry>)
    requires AnswersHold(answers, log) && log <= log'
    ensures AnswersHold(answers, log')
  {
    ResponsesAppend(FRESH, log, log'[|log|..]);
    assert log + log'[|log|..] == log';
  }

  lemma ReadIsCommitted(n: Life, end: nat)
    requires Inv(n) && n.applied <= end <= |CommittedPrefix(n)|
    ensures Read(n.store.disk, n.applied, end) == CommittedPrefix(n)[n.applied..end]
  {
    if n.applied < end {
      ReadsAreExact(n.store, Included(n.applied), Excluded(end), n.applied, end);
      assert n.store.log.history[n.applied..end] == CommittedPrefix(n)[n.applied..end];
    }
  }

  /** Applying a stretch of a log in a replica that holds what came before. */
  lemma ApplyStretch(log: seq<QueueEntry>, from: nat, end: nat)
    requires from <= end <= |log|
    ensures Run(Replay(log[..from]), log[from..end]) == Replay(log[..end])
    ensures AnswersHold(AnswersFrom(Responses(Replay(log[..from]), log[from..end]), from), log)
  {
    var rs := Responses(Replay(log[..from]), log[from..end]);
    RunAppend(FRESH, log[..from], log[from..end]);
    assert log[..from] + log[from..end] == log[..end];
    forall k | 0 <= k < end - from ensures rs[k] == Responses(FRESH, log)[from + k] {
      MiddleResponses(log[..from], log[from..end], log[end..], k);
      assert log[..from] + log[from..end] + log[end..] == log;
    }
    hide Responses, Run;
    forall a | a in AnswersFrom(rs, from) ensures a.index < |log| && a.response == Responses(FRESH, log)[a.index] {
      var k :| 0 <= k < |rs| && a == AnswersFrom(rs, from)[k];
    }
  }

  /** The responses to a stretch of a log are a stretch of the responses to the log. */
  lemma MiddleResponses(a: seq<QueueEntry>, b: seq<QueueEntry>, c: seq<QueueEntry>, k: nat)
    requires k < |b|
    ensures Responses(Run(FRESH, a), b)[k] == Responses(FRESH, a + b + c)[|a| + k]
  {
    hide Responses;
    ResponsesAppend(FRESH, a, b);
    ResponsesAppend(FRESH, a + b, c);
    hide Run;
  }

  lemma ApplyKeeps(n: Life, end: nat)
    requires Inv(n) && MayHappen(n, ApplyUpTo(end))
    ensures Inv(Happen(n, ApplyUpTo(end)))
    ensures CommittedPrefix(Happen(n, ApplyUpTo(end))) == CommittedPrefix(n)
  {
    ReadIsCommitted(n, end);
    ApplyStretch(CommittedPrefix(n), n.applied, end);
    assert CommittedPrefix(Happen(n, ApplyUpTo(end))) == CommittedPrefix(n);
    hide Refines, Run, Responses, Read;
  }

  lemma StretchResponses(log: seq<QueueEntry>, from: nat, end: nat)
    requires from <= end <= |log|
    ensures forall j | 0 <= j < end - from ::
              Responses(Run(FRESH, log[..from]), log[from..end])[j] == Responses(FRESH, log)[from + j]
  {
    forall j | 0 <= j < end - from
      ensures Responses(Run(FRESH, log[..from]), log[from..end])[j] == Responses(FRESH, log)[from + j]
    {
      MiddleResponses(log[..from], log[from..end], log[end..], j);
      assert log[..from] + log[from..end] + log[end..] == log;
    }
  }

  /** The response that entry `i` of the committed prefix has in its replay. */
  function Due(n: Life, i: nat): Answer
    requires i < |CommittedPrefix(n)|
  {
    Answer(i, Responses(FRESH, CommittedPrefix(n))[i])
  }

  /**
    Applying answers every entry it applies, once and in order, with the response
    that the entry has in the replay of the committed prefix.
   */
  lemma ApplyAnswersEach(n: Life, end: nat)
    requires Inv(n) && MayHappen(n, ApplyUpTo(end))
    ensures var (was, now) := (n.answers, Happen(n, ApplyUpTo(end)).answers);
            && |now| == |was| + (end - n.applied) && was <= now
            && forall k | |was| <= k < |now| :: now[k] == Due(n, n.applied + (k - |was|))
    ensures Happen(n, ApplyUpTo(end)).applied == end
  {
    hide Refines, Read, AnswersHold, Responses, Run, CommittedPrefix;
    ReadIsCommitted(n, end);
    StretchResponses(CommittedPrefix(n), n.applied, end);
  }

  /** Every entry applied in this life has been answered as the replay answers it. */
  ghost predicate AllAnswered(n: Life) {
    n.applied <= |CommittedPrefix(n)| && forall i | 0 <= i < n.applied :: Due(n, i) in n.answers
  }

  lemma GrowthAnswersAll(n: Life, n': Life)
    requires AllAnswered(n) && CommittedPrefix(n) <= CommittedPrefix(n')
    requires n'.applied == n.applied && n'.answers == n.answers
    ensures AllAnswered(n')
  {
    var (log, log') := (CommittedPrefix(n), CommittedPrefix(n'));
    ResponsesAppend(FRESH, log, log'[|log|..]);
    assert log + log'[|log|..] == log';
    hide CommittedPrefix, Responses, Run;
    forall i | 0 <= i < n'.applied ensures Due(n', i) in n'.answers {
      assert Due(n, i) in n.answers;
    }
  }

  lemma ApplyAnswersAll(n: Life, end: nat)
    requires Inv(n) && AllAnswered(n) && MayHappen(n, ApplyUpTo(end))
    ensures AllAnswered(Happen(n, ApplyUpTo(end)))
  {
    hide Refines, Read, AnswersHold, Responses, Run, CommittedPrefix;
    var n' := Happen(n, ApplyUpTo(end));
    ApplyKeeps(n, end);
    ApplyAnswersEach(n, end);
    hide Happen;
    forall i | 0 <= i < end ensures Due(n', i) in n'.answers {
      assert Due(n', i) == Due(n, i);
      if i >= n.applied {
        assert n'.answers[|n.answers| + (i - n.applied)] == Due(n, i);
      } else {
        var k :| 0 <= k < |n.answers| && n.answers[k] == Due(n, i);
        assert n'.answers[k] == n.answers[k];
      }
    }
  }

  lemma HappenAnswersAll(n: Life, ev: Event)
    requires Inv(n) && AllAnswered(n) && MayHappen(n, ev)
    ensures AllAnswered(Happen(n, ev))
  {
    hide Inv, CommittedPrefix, Due;
    match ev
    case LogCall(op) =>
      LogCallKeeps(n, op);
      GrowthAnswersAll(n, Happen(n, ev));
    case ApplyUpTo(end) => ApplyAnswersAll(n, end);
    case CrashAndReopen(keep) =>
  }

  /** In every run: whatever the node has applied in its present life, it has answered. */
  lemma {:induction false} AppliedIsAnswered(n: Life, evs: seq<Event>)
    requires Inv(n) && AllAnswered(n) && Disciplined(n, evs)
    ensures AllAnswered(After(n, evs))
    decreases |evs|
  {
    hide Inv, AllAnswered, MayHappen, Happen;
    if evs != [] {
      HappenKeeps(n, evs[0]);
      HappenAnswersAll(n, evs[0]);
      AppliedIsAnswered(Happen(n, evs[0]), evs[1..]);
    }
  }

  lemma HappenKeeps(n: Life, ev: Event)
    requires Inv(n) && MayHappen(n, ev)
    ensures Inv(Happen(n, ev))
  {
    hide Inv, MayHappen;
    match ev
    case LogCall(op) => LogCallKeeps(n, op);
    case ApplyUpTo(end) => ApplyKeeps(n, end);
    case CrashAndReopen(keep) => CrashKeepsLife(n, keep);
  }

  /**
    A crash forgets the state, and applying up to the committed id then brings back
    what a rebuild from the disk gives.
   */
  lemma RestartCatchesUp(n: Life, keep: nat)
    requires Inv(n) && MayHappen(n, CrashAndReopen(keep))
    ensures var born := Happen(n, CrashAndReopen(keep));
            && born.replica == FRESH && born.applied == 0
            && MayHappen(born, ApplyUpTo(|CommittedPrefix(n)|))
            && var up := Happen(born, ApplyUpTo(|CommittedPrefix(n)|));
               Sound(born.store.disk) && Rebuild(born.store.disk) == Ok(up.replica)
  {
    CrashKeepsLife(n, keep);
    var born := Happen(n, CrashAndReopen(keep));
    var end := |CommittedPrefix(n)|;
    RebuildsCommitted(born);
    ApplyKeeps(born, end);
    var up := Happen(born, ApplyUpTo(end));
    assert CommittedPrefix(up)[..end] == CommittedPrefix(n);
    hide Refines, Rebuild, Replay, Read, AnswersHold, CommittedPrefix;
  }

  lemma CrashKeepsLife(n: Life, keep: nat)
    requires Inv(n) && MayHappen(n, CrashAndReopen(keep))
    ensures Inv(Happen(n, CrashAndReopen(keep)))
    ensures CommittedPrefix(Happen(n, CrashAndReopen(keep))) == CommittedPrefix(n)
  {
    OpKeeps(n.store, Crash(keep));
    CrashBringsBackStale(n.store, keep);
    var n' := Happen(n, CrashAndReopen(keep));
    SamePrefix(n.store.log, n'.store.log, n, n');
    assert CommittedPrefix(n')[..0] == [];
  }

  lemma SamePrefix(l: SimpleLog<QueueRequest>, l': SimpleLog<QueueRequest>, n: Life, n': Life)
    requires l == n.store.log && l' == n'.store.log && CommitOk(l)
    requires l.committed == l'.committed && l.history <= l'.history
    ensures CommittedPrefix(n') == CommittedPrefix(n)
  {
    if l.committed.Some? {
      var end := l.committed.value.index + 1;
      assert l'.history[..end] == l.history[..end];
    }
  }

  lemma {:induction false} RunKeeps(n: Life, evs: seq<Event>)
    requires Inv(n) && Disciplined(n, evs)
    ensures Inv(After(n, evs))
    ensures CommittedPrefix(n) <= CommittedPrefix(After(n, evs))
    ensures n.answers <= After(n, evs).answers
    decreases |evs|
  {
    hide Inv, MayHappen, CommittedPrefix;
    if evs != [] {
      match evs[0] {
        case LogCall(op) => LogCallKeeps(n, op);
        case ApplyUpTo(end) => ApplyKeeps(n, end);
        case CrashAndReopen(keep) => CrashKeepsLife(n, keep);
      }
      RunKeeps(Happen(n, evs[0]), evs[1..]);
    }
  }

  /**
    Crash a node at any point of any run: reopening its disk rebuilds exactly the
    replay of the committed prefix, which covers everything applied before.
   */
  lemma CrashRecovery(evs: seq<Event>, keep: nat)
    requires Disciplined(BORN, evs) && MayHappen(After(BORN, evs), CrashAndReopen(keep))
    ensures var n := After(BORN, evs);
            var disk := Happen(n, CrashAndReopen(keep)).store.disk;
            && Sound(disk)
            && Rebuild(disk) == Ok(Replay(CommittedPrefix(n)))
            && n.applied <= |CommittedPrefix(n)|
            && n.replica == Replay(CommittedPrefix(n)[..n.applied])
  {
    BornOk();
    RunKeeps(BORN, evs);
    var n := After(BORN, evs);
    CrashKeepsLife(n, keep);
    RebuildsCommitted(Happen(n, CrashAndReopen(keep)));
    hide Refines, Replay, Disciplined, After, Rebuild, Step, Allowed, AnswersHold;
  }

  lemma RebuildsCommitted(n: Life)
    requires Inv(n)
    ensures Sound(n.store.disk) && Rebuild(n.store.disk) == Ok(Replay(CommittedPrefix(n)))
  {
    hide Refines, Rebuild, Replay, AnswersHold;
    if n.store.log.committed.None? {
      UnsavedRebuildsNothing(n.store);
      ReplayOfNothing();
    } else {
      RebuildsPrefix(n.store, n.store.log.committed.value.index + 1);
    }
  }

  lemma ReplayOfNothing()
    ensures Replay([]) == FRESH
  {
  }

  lemma RebuildsPrefix(st: Store<QueueRequest>, end: nat)
    requires Refines(st) && st.log.lastPurged == None && st.log.committed.Some?
    requires end == st.log.committed.value.index + 1
    ensures Sound(st.disk) && end <= |st.log.history|
    ensures end < U64 ==> Rebuild(st.disk) == Ok(Replay(st.log.history[..end]))
  {
    if end < U64 {
      ReadsPrefix(st, end);
    }
    hide Entries, Replay;
  }

  lemma ReadsPrefix(st: Store<QueueRequest>, end: nat)
    requires Refines(st) && st.log.lastPurged == None && 0 < end <= |st.log.history| && end < U64
    ensures Sound(st.disk) && Committed(st.disk) == Ok(st.log.committed)
    ensures Entries(st.disk, Included(0), Excluded(end)) == Ok(st.log.history[..end])
  {
    ReadsAreExact(st, Included(0), Excluded(end), 0, end);
    assert st.log.history[0..end] == st.log.history[..end];
  }

  lemma BornOk()
    ensures Inv(BORN)
  {
    NewStoreRefines<QueueRequest>();
  }

  /**
    Whatever happens later, crashes included, an answered publish stays where its
    client was told: the message published to `q` under that offset has its payload.
   */
  lemma AnsweredOffsetsSurvive(evs: seq<Event>, later: seq<Event>, a: Answer, q: string)
    requires Disciplined(BORN, evs) && Disciplined(After(BORN, evs), later)
    requires a in After(BORN, evs).answers
    ensures var was := CommittedPrefix(After(BORN, evs));
            var log := CommittedPrefix(After(After(BORN, evs), later));
            && a.index < |was| && was <= log && log[a.index] == was[a.index]
            && (Publishes(log[a.index], q) ==>
                  var at := |Published(log[..a.index], q)|;
                  && at < |Published(log, q)|
                  && a.response.publishedOffset == Some(at % U64)
                  && Published(log, q)[at] == Message(at % U64, log[a.index].payload.data.payload))
  {
    BornOk();
    RunKeeps(BORN, evs);
    RunKeeps(After(BORN, evs), later);
    PublishStays(CommittedPrefix(After(After(BORN, evs), later)), a.index, q);
  }

  /**
    Purging is what recovery cannot survive: with something committed, the state can
    be rebuilt from the log exactly when the disk holds entries from index 0 on.
   */
  lemma RebuildIff(st: Store<QueueRequest>)
    requires Refines(st) && st.log.committed.Some? && st.log.committed.value.index + 1 < U64
    ensures Rebuild(st.disk).Ok? <==> st.disk.first == 0 < End(st.disk)
    ensures Rebuild(st.disk).Ok? ==> Rebuild(st.disk) == Ok(Replay(st.view.history[..st.log.committed.value.index + 1]))
  {
    var end := st.log.committed.value.index + 1;
    hide Refines, Replay;
    CommittedIsSaved(st);
    if st.disk.first == 0 < End(st.disk) {
      ShownFromStart(st, end);
      hide Entries;
    } else {
      assert Fetch(st.disk, 0, end).Err?;
    }
  }

  lemma CommittedIsSaved(st: Store<QueueRequest>)
    requires Refines(st)
    ensures Sound(st.disk) && Committed(st.disk) == Ok(st.log.committed)
    ensures st.log.committed.Some? ==> st.log.committed.value.index < |st.log.history| <= |st.view.history|
  {
  }

  lemma ShownFromStart(st: Store<QueueRequest>, end: nat)
    requires Refines(st) && st.disk.first == 0 < End(st.disk) && 0 < end <= |st.log.history| && end < U64
    ensures Entries(st.disk, Included(0), Excluded(end)) == Ok(st.view.history[..end])
  {
    assert !Bare(st);
    EntriesShown(st.view, st.disk, Included(0), Excluded(end), 0, end);
    assert st.view.history[0..end] == st.view.history[..end];
  }

  /** With nothing saved as committed a node starts from nothing, whatever its log held or had purged. */
  lemma UnsavedRebuildsNothing(st: Store<QueueRequest>)
    requires Refines(st) && st.log.committed == None
    ensures Sound(st.disk) && Rebuild(st.disk) == Ok(FRESH)
  {
  }

  lemma InTurn<D>(st: Store<D>, a: Op<D>, rest: seq<Op<D>>)
    ensures LogRefinement.After(st, [a] + rest) == LogRefinement.After(Step(st, a), rest)
    ensures LogRefinement.Disciplined(st, [a] + rest) <==> Allowed(st, a) && LogRefinement.Disciplined(Step(st, a), rest)
  {
    assert ([a] + rest)[1..] == rest;
  }

  /** The smallest such node: it commits one entry, purges it, and cannot rebuild from its log any more. */
  lemma PurgedCannotRebuild(leader: LeaderId, payload: EntryPayload<QueueRequest>)
    ensures var id := LogId(leader, 0);
            var ops := [Append([Entry(id, payload)])] + ([SaveCommitted(Some(id))] + ([MarkPurged(id)] + ([Compact] + [])));
            && LogRefinement.Disciplined(NewStore(), ops)
            && var disk := LogRefinement.After(NewStore(), ops).disk;
               Sound(disk) && Rebuild(disk).Err?
  {
    var id := LogId(leader, 0);
    var e: QueueEntry := Entry(id, payload);
    var st0 := NewStore<QueueRequest>();
    var st1 := AfterAppend(e);
    InTurn(st0, Append([e]), [SaveCommitted(Some(id))] + ([MarkPurged(id)] + ([Compact] + [])));
    hide Refines, Step, Allowed;
    var st4 := PurgesOnlyEntry(st1, e);
    hide LogRefinement.After, LogRefinement.Disciplined;
    RebuildIff(st4);
    hide Rebuild;
  }

  /** A store that holds one entry, and saved its id as committed if `saved`. */
  ghost predicate OneEntry(st: Store<QueueRequest>, e: QueueEntry, saved: bool, purged: bool) {
    && e.logId.index == 0 && Refines(st) && Sound(st.disk) && End(st.disk) == 1 && st.disk.first == 0
    && st.log == SimpleLog(if purged then 1 else 0, [e], if purged then Some(e.logId) else None,
                           if saved then Some(e.logId) else None, None)
  }

  lemma SavesOneEntry(st: Store<QueueRequest>, e: QueueEntry)
    requires OneEntry(st, e, false, false)
    ensures Allowed(st, SaveCommitted(Some(e.logId))) && OneEntry(Step(st, SaveCommitted(Some(e.logId))), e, true, false)
  {
    hide Refines, Step;
    StepKeeps(st, SaveCommitted(Some(e.logId)));
    StepOnDisk(st, SaveCommitted(Some(e.logId)));
  }

  lemma MarksOneEntry(st: Store<QueueRequest>, e: QueueEntry)
    requires OneEntry(st, e, true, false)
    ensures Allowed(st, MarkPurged(e.logId)) && OneEntry(Step(st, MarkPurged(e.logId)), e, true, true)
  {
    hide Refines, Step;
    StepKeeps(st, MarkPurged(e.logId));
    StepOnDisk(st, MarkPurged(e.logId));
  }

  lemma CompactsOneEntry(st: Store<QueueRequest>, e: QueueEntry)
    requires OneEntry(st, e, true, true)
    ensures var end := Step(st, Compact);
            && Allowed(st, Compact) && Refines(end) && Sound(end.disk)
            && end.disk.first == 1 && end.log.committed == Some(e.logId)
  {
    hide Refines, Step;
    StepKeeps(st, Compact);
    StepOnDisk(st, Compact);
  }

  lemma PurgesOnlyEntry(st: Store<QueueRequest>, e: QueueEntry) returns (end: Store<QueueRequest>)
    requires OneEntry(st, e, false, false)
    ensures var id := e.logId;
            var ops := [SaveCommitted(Some(id))] + ([MarkPurged(id)] + ([Compact] + []));
            LogRefinement.Disciplined(st, ops) && end == LogRefinement.After(st, ops)
    ensures Refines(end) && end.log.committed == Some(e.logId) && end.disk.first == 1 && Sound(end.disk)
  {
    hide Refines, Step, Allowed, OneEntry;
    var id := e.logId;
    InTurn(st, SaveCommitted(Some(id)), [MarkPurged(id)] + ([Compact] + []));
    var st2 := Step(st, SaveCommitted(Some(id)));
    InTurn(st2, MarkPurged(id), [Compact] + []);
    var st3 := Step(st2, MarkPurged(id));
    InTurn(st3, Compact, []);
    end := Step(st3, Compact);
    SavesOneEntry(st, e);
    MarksOneEntry(st2, e);
    CompactsOneEntry(st3, e);
  }

  lemma AfterAppend(e: QueueEntry) returns (st: Store<QueueRequest>)
    requires e.logId.index == 0
    ensures Allowed(NewStore(), Append([e]))
    ensures st == Step(NewStore(), Append([e])) && OneEntry(st, e, false, false)
  {
    NewStoreRefines<QueueRequest>();
    OpKeeps(NewStore<QueueRequest>(), Append([e]));
    st := Step(NewStore(), Append([e]));
    assert EncodeAll([e]) == [EncodeEntry(e)];
  }

  /** The smallest life: one publish is appended, committed, applied and answered, forgotten in a crash, and applied again. */
  lemma AnsweredForgottenReplayed(leader: LeaderId, q: string, payload: Bytes) returns (evs: seq<Event>)
    ensures Disciplined(BORN, evs)
    ensures var yes := QueueResponse(Some(0), None); After(BORN, evs).answers == [Answer(0, yes), Answer(0, yes)]
    ensures Contents(After(BORN, evs).replica.state, q) == [Message(0, payload)]
  {
    var e: QueueEntry := Entry(LogId(leader, 0), Normal(QueueRequest.Publish(q, payload)));
    var append, save := LogCall(Append([e])), LogCall(SaveCommitted(Some(e.logId)));
    hide Inv, MayHappen, Happen, OneEntry, CommittedPrefix;
    var n2 := CommitsOnly(e);
    var n3 := AppliesOnly(n2, e, q, payload);
    var n4 := ForgetsOnly(n3, e);
    var n5 := AppliesOnly(n4, e, q, payload);
    evs := [append] + ([save] + ([ApplyUpTo(1)] + ([CrashAndReopen(0)] + ([ApplyUpTo(1)] + []))));
    HappensFirst(BORN, append, [save] + ([ApplyUpTo(1)] + ([CrashAndReopen(0)] + ([ApplyUpTo(1)] + []))));
    HappensFirst(Happen(BORN, append), save, [ApplyUpTo(1)] + ([CrashAndReopen(0)] + ([ApplyUpTo(1)] + [])));
    HappensFirst(n2, ApplyUpTo(1), [CrashAndReopen(0)] + ([ApplyUpTo(1)] + []));
    HappensFirst(n3, CrashAndReopen(0), [ApplyUpTo(1)] + []);
    HappensFirst(n4, ApplyUpTo(1), []);
  }

  lemma CommitsOnly(e: QueueEntry) returns (n: Life)
    requires e.logId.index == 0
    ensures var append, save := LogCall(Append([e])), LogCall(SaveCommitted(Some(e.logId)));
            && MayHappen(BORN, append) && MayHappen(Happen(BORN, append), save)
            && n == Happen(Happen(BORN, append), save)
    ensures Inv(n) && CommittedPrefix(n) == [e] && n.applied == 0 && n.answers == [] && OneEntry(n.store, e, true, false)
  {
    hide Refines, Step, Inv, Allowed;
    var n1 := AppendsOnly(e);
    n := Happen(n1, LogCall(SaveCommitted(Some(e.logId))));
    SavesOneEntry(n1.store, e);
    HappenKeeps(n1, LogCall(SaveCommitted(Some(e.logId))));
    assert CommittedPrefix(n) == [e];
  }

  lemma AppendsOnly(e: QueueEntry) returns (n: Life)
    requires e.logId.index == 0
    ensures MayHappen(BORN, LogCall(Append([e]))) && n == Happen(BORN, LogCall(Append([e])))
    ensures Inv(n) && n == BORN.(store := n.store) && OneEntry(n.store, e, false, false)
  {
    hide Refines, Step, Inv, Allowed;
    n := Happen(BORN, LogCall(Append([e])));
    var st := AfterAppend(e);
    BornOk();
    HappenKeeps(BORN, LogCall(Append([e])));
  }

  lemma ForgetsOnly(n: Life, e: QueueEntry) returns (n': Life)
    requires Inv(n) && CommittedPrefix(n) == [e] && OneEntry(n.store, e, true, false)
    ensures MayHappen(n, CrashAndReopen(0)) && n' == Happen(n, CrashAndReopen(0)) && Inv(n')
    ensures CommittedPrefix(n') == [e] && n'.applied == 0 && n'.answers == n.answers
  {
    hide Refines, Step;
    n' := Happen(n, CrashAndReopen(0));
    assert Allowed(n.store, Crash(0));
    CrashKeepsLife(n, 0);
  }

  lemma HappensFirst(n: Life, ev: Event, rest: seq<Event>)
    ensures After(n, [ev] + rest) == After(Happen(n, ev), rest)
    ensures Disciplined(n, [ev] + rest) <==> MayHappen(n, ev) && Disciplined(Happen(n, ev), rest)
  {
    assert ([ev] + rest)[1..] == rest;
  }

  /** Fresh state applies the only committed entry, a publish. */
  lemma AppliesOnly(n: Life, e: QueueEntry, q: string, payload: Bytes) returns (n': Life)
    requires Inv(n) && CommittedPrefix(n) == [e] && n.applied == 0
    requires e.payload == Normal(QueueRequest.Publish(q, payload))
    ensures MayHappen(n, ApplyUpTo(1)) && n' == Happen(n, ApplyUpTo(1)) && Inv(n') && CommittedPrefix(n') == [e]
    ensures n'.answers == n.answers + [Answer(0, QueueResponse(Some(0), None))] && n'.store == n.store
    ensures Contents(n'.replica.state, q) == [Message(0, payload)]
  {
    n' := Happen(n, ApplyUpTo(1));
    ApplyKeeps(n, 1);
    ApplyAnswersEach(n, 1);
    OnlyPublish(e, q, payload);
    hide Refines, Read, Responses, Run;
    assert [e][..1] == [e];
    assert n'.answers[|n.answers|] == Answer(0, QueueResponse(Some(0), None));
    hide Happen;
  }

  lemma OnlyPublish(e: QueueEntry, q: string, payload: Bytes)
    requires e.payload == Normal(QueueRequest.Publish(q, payload))
    ensures Responses(FRESH, [e]) == [QueueResponse(Some(0), None)]
    ensures Contents(Replay([e]).state, q) == [Message(0, payload)]
  {
    assert [] + [e] == [e];
    RunSnoc(FRESH, [], e);
    ResponsesSnoc(FRESH, [], e);
  }
}

/**
  The log store refines a simple Raft log that truncates and purges at once,
  under crashes at every point, including between purge's two writes.
 */
module LogRefinement {
  import opened Wrappers
  import opened Types
  import opened RaftEngine
  import opened LogStore

  /** `history` is the log from index 0; what lies below `first` was purged. */
  datatype SimpleLog<+D> = SimpleLog(
    first: nat, history: seq<Entry<D>>, lastPurged: Option<LogId>, committed: Option<LogId>, vote: Option<Vote>)

  /** A disk as a stretch of a log: it holds `history` from `base` on, and reads begin at `first`. */
  datatype View<+D> = View(base: nat, first: nat, history: seq<Entry<D>>)

  /** The simple log, the disk, and the view of the disk that the proofs work with. */
  datatype Store<+D> = Store(log: SimpleLog<D>, disk: Disk<D>, view: View<D>)

  /**
    `MarkPurged` and `Compact` are the two steps of a purge of an entry in the log.
    `PurgePast` is the purge after installing a snapshot that covers the log
    `covered`, which reaches beyond the local log's end.
   */
  datatype Op<+D> =
    | Append(entries: seq<Entry<D>>)
    | Truncate(id: LogId)
    | MarkPurged(id: LogId)
    | Compact
    | PurgePast(covered: seq<Entry<D>>)
    | SaveCommitted(committed: Option<LogId>)
    | SaveVote(vote: Vote)
    | Crash(keep: nat)

  function LastId(es: seq<Entry>): Option<LogId> {
    if es == [] then None else Some(es[|es| - 1].logId)
  }

  // What openraft promises about its calls, given what it has seen of the log.

  ghost predicate Ascending(es: seq<Entry>) {
    forall i, j | 0 <= i <= j < |es| :: LeaderLe(es[i].logId.leader, es[j].logId.leader)
  }

  ghost predicate Numbered(es: seq<Entry>, from: nat) {
    forall k | 0 <= k < |es| :: es[k].logId.index == from + k
  }

  ghost predicate CanFollow(prev: Option<LogId>, es: seq<Entry>) {
    es != [] && prev.Some? ==> LeaderLe(prev.value.leader, es[0].logId.leader)
  }

  ghost predicate Allowed<D>(st: Store<D>, op: Op<D>) {
    var l := st.log;
    match op
    case Append(es) => Numbered(es, |l.history|) && Ascending(es) && CanFollow(LastId(l.history), es)
    case Truncate(id) =>
      && l.first <= id.index <= |l.history|
      && (l.committed.Some? ==> l.committed.value.index < id.index)
    case MarkPurged(id) =>
      && l.first <= id.index < |l.history| && l.history[id.index].logId == id
      && OptLe(Some(id), l.committed)
    case Compact => l.lastPurged.Some?
    case PurgePast(es) => Numbered(es, 0) && Ascending(es) && |l.history| < |es| && End(st.disk) <= |es|
    case SaveCommitted(c) =>
      && OptLe(l.committed, c)
      && (l.committed.Some? ==> l.committed.value.index <= c.value.index)
      && (c.Some? ==> c.value.index < |l.history|)
    case SaveVote(_) => true
    case Crash(keep) => st.disk.base <= keep <= st.disk.first && (Bare(st) ==> keep == st.disk.first)
  }

  /** The simple log's step. Only a crash looks at the disk: it may bring back what was not yet overwritten. */
  function LogAfter<D>(st: Store<D>, op: Op<D>): SimpleLog<D> {
    var l := st.log;
    match op
    case Append(es) => l.(history := l.history + es)
    case Truncate(id) => if id.index <= |l.history| then l.(history := l.history[..id.index]) else l
    case MarkPurged(id) => l.(first := id.index + 1, lastPurged := Some(id))
    case Compact => l
    case PurgePast(es) => l.(first := |es|, history := es, lastPurged := LastId(es))
    case SaveCommitted(c) => l.(committed := c)
    case SaveVote(v) => l.(vote := Some(v))
    case Crash(_) => l.(history := l.history + StaleTail(st))
  }

  /** The entries on disk beyond the simple log: those a pending truncation has yet to overwrite. */
  function StaleTail<D>(st: Store<D>): seq<Entry<D>> {
    if |st.log.history| <= |st.view.history| then st.view.history[|st.log.history|..] else []
  }

  function ViewAfter<D>(st: Store<D>, op: Op<D>): View<D> {
    var v, next := st.view, |st.log.history|;
    match op
    case Append(es) => if es == [] || |v.history| < next then v else View(v.first, v.first, v.history[..next] + es)
    case Truncate(_) => v
    case Compact => if st.log.lastPurged.None? then v else v.(first := Clamp(v, st.log.lastPurged.value.index + 1))
    case PurgePast(es) => View(|es|, |es|, es)
    case Crash(keep) => if Bare(st) then v else v.(base := keep, first := keep)
    case _ => v.(base := v.first)
  }

  function Clamp(v: View, index: nat): nat {
    if index <= v.first then v.first else if index <= |v.history| then index else |v.history|
  }

  /** The store's own step; `None` is a panic of the engine. */
  function DiskAfter<D>(st: Store<D>, op: Op<D>): Option<Disk<D>>
    requires Sound(st.disk)
  {
    var d := st.disk;
    match op
    case Append(es) => Add(d, EncodeAll(es))
    case Truncate(_) => Some(d)
    case MarkPurged(id) => Some(MarkedPurged(d, id))
    case Compact =>
      Some(if st.log.lastPurged.Some? then Compacted(d, st.log.lastPurged.value.index + 1) else d)
    case PurgePast(es) =>
      Some(if es == [] then d else Compacted(MarkedPurged(d, LastId(es).value), LastId(es).value.index + 1))
    case SaveCommitted(c) => Some(Put(d, COMMITTED_KEY, Blob(0, OptionDoc(c))))
    case SaveVote(v) => Some(Put(d, VOTE_KEY, Blob(0, VoteDoc(v))))
    case Crash(keep) => if d.base <= keep <= d.first then Some(Reopened(d, keep)) else None
  }

  // The refinement relation.

  ghost predicate Shows<D>(v: View<D>, d: Disk<D>) {
    && Sound(d) && v.base == d.base && v.first == d.first
    && |v.history| == End(d) && d.blobs == EncodeAll(v.history[v.base..])
  }

  ghost predicate KeysMatch(l: SimpleLog, d: Disk) {
    LastPurged(d) == Ok(l.lastPurged) && Committed(d) == Ok(l.committed) && SavedVote(d) == Ok(l.vote)
  }

  /** The simple log is a prefix of what the disk shows, and nothing above the purge marker is missing. */
  ghost predicate Matches(l: SimpleLog, v: View) {
    && v.base <= v.first <= l.first <= |l.history|
    && l.history <= v.history
  }

  ghost predicate MarkOk(l: SimpleLog) {
    if l.lastPurged.None? then l.first == 0
    else 0 < l.first <= |l.history| && l.history[l.first - 1].logId == l.lastPurged.value
  }

  ghost predicate CommitOk(l: SimpleLog) {
    l.committed.Some? ==> l.committed.value.index < |l.history|
  }

  /** What start-up validation asks of the saved ids. */
  ghost predicate Covered(l: SimpleLog) {
    OptLe(l.lastPurged, l.committed)
  }

  ghost predicate Ordered(v: View) {
    Ascending(v.history) && Numbered(v.history, 0)
  }

  ghost predicate Refines<D>(st: Store<D>) {
    && Ordered(st.view) && KeysMatch(st.log, st.disk) && MarkOk(st.log) && CommitOk(st.log)
    && if Bare(st) then Restarted(st) else Shows(st.view, st.disk) && Matches(st.log, st.view)
  }

  /** Nothing is left on disk: behind the purged id the log starts anew. A purge beyond the log's end leads here. */
  ghost predicate Restarted<D>(st: Store<D>) {
    var n := |st.log.history|;
    Sound(st.disk) && Empty(st.disk) && End(st.disk) <= n && st.log.first == n && st.view == View(n, n, st.log.history)
  }

  predicate Pending(st: Store) {
    |st.log.history| < End(st.disk)
  }

  predicate Bare(st: Store) {
    st.view.base == |st.view.history|
  }

  // The view follows the disk.

  lemma EncodeCut<D>(es: seq<Entry<D>>, base: nat, a: nat, b: nat)
    requires base <= a <= b <= |es|
    ensures EncodeAll(es[base..])[a - base..b - base] == EncodeAll(es[a..b])
  {
  }

  lemma EncodeConcat<D>(a: seq<Entry<D>>, b: seq<Entry<D>>)
    ensures EncodeAll(a + b) == EncodeAll(a) + EncodeAll(b)
  {
  }

  lemma DropShows<D>(v: View<D>, d: Disk<D>, keep: nat, keys: map<string, Blob<D>>)
    requires Shows(v, d) && d.base <= keep <= d.first
    ensures forall first | keep <= first <= End(d) ::
              Shows(View(keep, first, v.history), Disk(keep, d.blobs[keep - d.base..], first, keys))
  {
    var n := keep - d.base;
    EncodeCut(v.history, v.base, keep, |v.history|);
    assert v.history[keep..|v.history|] == v.history[keep..];
    assert d.blobs[n..|d.blobs|] == d.blobs[n..];
    assert forall k | 0 <= k < |d.blobs| - n :: d.blobs[n..][k] == d.blobs[n + k];
  }

  /** The engine accepts blobs that start where a simple log may end: no hole, nothing compacted touched. */
  lemma AddAccepts<D>(d: Disk<D>, next: nat, bs: seq<Blob<D>>)
    requires Sound(d) && d.first <= next <= End(d)
    requires bs != [] && forall k | 0 <= k < |bs| :: bs[k].index == next + k
    ensures Add(d, bs) == Some(Disk(d.first, d.blobs[d.first - d.base..next - d.base] + bs, d.first, d.keys))
    ensures Sound(Add(d, bs).value)
  {
    var kept := d.blobs[d.first - d.base..next - d.base];
    assert forall k | 0 <= k < |kept| :: kept[k] == d.blobs[k + d.first - d.base];
    if Empty(d) {
      assert kept + bs == bs;
    }
  }

  lemma HistoryCut<T>(s: seq<T>, first: nat, next: nat, es: seq<T>)
    requires first <= next <= |s|
    ensures (s[..next] + es)[first..] == s[first..next] + es
  {
  }

  lemma AddShows<D>(v: View<D>, d: Disk<D>, next: nat, es: seq<Entry<D>>)
    requires Shows(v, d) && d.first <= next <= End(d) && es != [] && Numbered(es, next)
    ensures Add(d, EncodeAll(es)).Some?
    ensures Shows(View(v.first, v.first, v.history[..next] + es), Add(d, EncodeAll(es)).value)
    ensures Add(d, EncodeAll(es)).value.keys == d.keys
  {
    AddAccepts(d, next, EncodeAll(es));
    EncodeCut(v.history, v.base, v.first, next);
    EncodeConcat(v.history[v.first..next], es);
    HistoryCut(v.history, v.first, next, es);
  }

  lemma SaveShows<D>(st: Store<D>, op: Op<D>)
    requires Shows(st.view, st.disk) && (op.MarkPurged? || op.SaveCommitted? || op.SaveVote?)
    ensures Shows(ViewAfter(st, op), DiskAfter(st, op).value)
  {
    DropShows(st.view, st.disk, st.disk.first, DiskAfter(st, op).value.keys);
  }

  lemma OpShows<D>(st: Store<D>, op: Op<D>)
    requires Shows(st.view, st.disk) && Matches(st.log, st.view) && Allowed(st, op) && !op.PurgePast?
    ensures DiskAfter(st, op).Some?
    ensures Shows(ViewAfter(st, op), DiskAfter(st, op).value)
  {
    match op
    case Append(es) =>
      if es != [] {
        AddShows(st.view, st.disk, |st.log.history|, es);
      }
    case Truncate(_) =>
    case Compact =>
    case Crash(keep) => DropShows(st.view, st.disk, keep, st.disk.keys);
    case _ => SaveShows(st, op);
  }

  // The simple log stays a prefix, in order, between its marks.

  lemma OpMatches<D>(st: Store<D>, op: Op<D>)
    requires Matches(st.log, st.view) && Allowed(st, op) && !op.PurgePast? && !Bare(st)
    requires st.disk.base == st.view.base && st.disk.first == st.view.first
    requires MarkOk(st.log) && Ordered(st.view)
    ensures Matches(LogAfter(st, op), ViewAfter(st, op))
  {
    if st.log.lastPurged.Some? {
      assert st.view.history[st.log.first - 1] == st.log.history[st.log.first - 1];
    }
  }

  /** The purge marker is the id of the last purged entry, and the committed id lies within the log. */
  lemma OpMarks<D>(st: Store<D>, op: Op<D>)
    requires st.log.first <= |st.log.history| && MarkOk(st.log) && CommitOk(st.log) && Allowed(st, op)
    ensures MarkOk(LogAfter(st, op)) && CommitOk(LogAfter(st, op))
  {
  }

  lemma AscendingConcat<D>(a: seq<Entry<D>>, b: seq<Entry<D>>)
    requires Ascending(a) && Ascending(b) && CanFollow(LastId(a), b)
    ensures Ascending(a + b)
  {
    forall i, j | 0 <= i <= j < |a + b|
      ensures LeaderLe((a + b)[i].logId.leader, (a + b)[j].logId.leader)
    {
      if i < |a| <= j {
        assert LeaderLe(a[i].logId.leader, a[|a| - 1].logId.leader);
        assert LeaderLe(b[0].logId.leader, b[j - |a|].logId.leader);
      }
    }
  }

  lemma OpOrdered<D>(st: Store<D>, op: Op<D>)
    requires st.log.history <= st.view.history && Ordered(st.view) && Allowed(st, op)
    ensures Ordered(ViewAfter(st, op))
  {
    if op.Append? && op.entries != [] {
      assert st.view.history[..|st.log.history|] == st.log.history;
      AscendingConcat(st.log.history, op.entries);
    }
  }

  /** What was saved last is what is read. */
  lemma OpKeys<D>(st: Store<D>, op: Op<D>)
    requires Sound(st.disk) && KeysMatch(st.log, st.disk) && Allowed(st, op) && DiskAfter(st, op).Some?
    ensures KeysMatch(LogAfter(st, op), DiskAfter(st, op).value)
  {
    var d, d' := st.disk, DiskAfter(st, op).value;
    match op
    case MarkPurged(id) => assert d'.keys == d.keys[LAST_PURGED_KEY := Blob(0, LogIdDoc(id))];
    case PurgePast(es) => assert d'.keys == d.keys[LAST_PURGED_KEY := Blob(0, LogIdDoc(LastId(es).value))];
    case SaveCommitted(c) => assert d'.keys == d.keys[COMMITTED_KEY := Blob(0, OptionDoc(c))];
    case SaveVote(v) => assert d'.keys == d.keys[VOTE_KEY := Blob(0, VoteDoc(v))];
    case _ => assert d'.keys == d.keys;
  }

  function StoreAfter<D>(st: Store<D>, op: Op<D>): Store<D>
    requires Sound(st.disk) && DiskAfter(st, op).Some?
  {
    Store(LogAfter(st, op), DiskAfter(st, op).value, ViewAfter(st, op))
  }

  // Purges beyond the log's end.

  lemma PastRestarts<D>(st: Store<D>, es: seq<Entry<D>>)
    requires Sound(st.disk) && End(st.disk) <= |es| && es != [] && Numbered(es, 0)
    ensures Bare(StoreAfter(st, PurgePast(es))) && Restarted(StoreAfter(st, PurgePast(es)))
  {
    assert LastId(es) == Some(es[|es| - 1].logId) && LastId(es).value.index + 1 == |es|;
    var marked := MarkedPurged(st.disk, LastId(es).value);
    assert Sound(marked) && End(marked) == End(st.disk);
  }

  /** Nothing happens on the empty disk until an append starts it anew behind the purged id. */
  lemma RestartedKeeps<D>(st: Store<D>, op: Op<D>)
    requires Refines(st) && Bare(st) && Allowed(st, op) && !op.PurgePast?
    ensures DiskAfter(st, op).Some?
    ensures var next := StoreAfter(st, op);
            if op.Append? && op.entries != [] then !Bare(next) && Shows(next.view, next.disk) && Matches(next.log, next.view)
            else Bare(next) && Restarted(next)
  {
    hide Ordered, KeysMatch, MarkOk, CommitOk;
    if op.Append? && op.entries != [] {
      AppendStartsAnew(st.log.history, st.disk, op.entries);
    }
  }

  lemma AppendStartsAnew<D>(history: seq<Entry<D>>, d: Disk<D>, es: seq<Entry<D>>)
    requires Sound(d) && Empty(d) && es != [] && Numbered(es, |history|)
    ensures Add(d, EncodeAll(es)) == Some(Disk(|history|, EncodeAll(es), |history|, d.keys))
    ensures Shows(View(|history|, |history|, history + es), Add(d, EncodeAll(es)).value)
  {
    assert (history + es)[|history|..] == es;
    assert EncodeAll(es)[0] == EncodeEntry(es[0]);
    assert forall k | 0 <= k < |es| :: EncodeAll(es)[k].index == |history| + k;
  }

  lemma EmptyIsRestarted<D>(st: Store<D>)
    requires Shows(st.view, st.disk) && Matches(st.log, st.view) && Bare(st)
    ensures Restarted(st)
  {
    assert st.log.history == st.view.history;
  }

  /** The purge marker stays at or below the saved committed id, except where a purge beyond the log's end overtakes it. */
  lemma OpCovers<D>(st: Store<D>, op: Op<D>)
    requires Covered(st.log) && Allowed(st, op)
    ensures Covered(LogAfter(st, op)) <==> (op.PurgePast? ==> OptLe(LastId(op.covered), st.log.committed))
  {
  }

  lemma OpKeeps<D>(st: Store<D>, op: Op<D>)
    requires Refines(st) && Allowed(st, op)
    ensures DiskAfter(st, op).Some?
    ensures Refines(StoreAfter(st, op))
  {
    OpMarks(st, op);
    OpOrdered(st, op);
    if op.PurgePast? {
      PastRestarts(st, op.covered);
    } else if Bare(st) {
      RestartedKeeps(st, op);
    } else {
      OpShows(st, op);
      OpMatches(st, op);
      if Bare(StoreAfter(st, op)) {
        EmptyIsRestarted(StoreAfter(st, op));
      }
    }
    OpKeys(st, op);
  }

  /** It always does where the snapshot covers what was committed: until the next save, start-up validation would fail. */
  lemma PastPurgeOvertakes<D>(st: Store<D>, es: seq<Entry<D>>)
    requires Refines(st) && Allowed(st, PurgePast(es))
    requires var c := st.log.committed; c.Some? ==> es[c.value.index].logId == c.value
    ensures !Covered(LogAfter(st, PurgePast(es)))
  {
    var c := st.log.committed;
    if c.Some? {
      assert LeaderLe(es[c.value.index].logId.leader, es[|es| - 1].logId.leader);
    }
  }

  // Whole runs.

  /** One call, or one crash. A panicking engine would leave everything as it was. */
  function Step<D>(st: Store<D>, op: Op<D>): Store<D> {
    if Sound(st.disk) && DiskAfter(st, op).Some? then StoreAfter(st, op) else st
  }

  lemma StepKeeps<D>(st: Store<D>, op: Op<D>)
    requires Refines(st) && Allowed(st, op)
    ensures Refines(Step(st, op))
    ensures Step(st, op).log == LogAfter(st, op) && Step(st, op).view == ViewAfter(st, op)
  {
    OpKeeps(st, op);
  }

  lemma StepOnDisk<D>(st: Store<D>, op: Op<D>)
    requires Refines(st) && Allowed(st, op)
    ensures Sound(st.disk) && DiskAfter(st, op) == Some(Step(st, op).disk) && Sound(Step(st, op).disk)
  {
    OpKeeps(st, op);
  }

  function After<D>(st: Store<D>, ops: seq<Op<D>>): Store<D>
    decreases |ops|
  {
    if ops == [] then st else After(Step(st, ops[0]), ops[1..])
  }

  ghost predicate Disciplined<D>(st: Store<D>, ops: seq<Op<D>>)
    decreases |ops|
  {
    ops == [] || (Allowed(st, ops[0]) && Disciplined(Step(st, ops[0]), ops[1..]))
  }

  ghost predicate NeverPanics<D>(st: Store<D>, ops: seq<Op<D>>)
    decreases |ops|
  {
    ops == [] ||
    (Sound(st.disk) && DiskAfter(st, ops[0]).Some? && NeverPanics(Step(st, ops[0]), ops[1..]))
  }

  function NewStore<D>(): Store<D> {
    Store(SimpleLog(0, [], None, None, None), NewDisk(), View(0, 0, []))
  }

  lemma NewStoreRefines<D>()
    ensures Refines(NewStore<D>()) && Covered(NewStore<D>().log)
  {
  }

  /** Every disciplined run refines the simple log and never makes the engine panic. */
  lemma {:induction false} RunRefines<D>(st: Store<D>, ops: seq<Op<D>>)
    requires Refines(st) && Disciplined(st, ops)
    ensures Refines(After(st, ops)) && NeverPanics(st, ops)
    ensures Covered(st.log) && (forall k | 0 <= k < |ops| :: !ops[k].PurgePast?) ==> Covered(After(st, ops).log)
    decreases |ops|
  {
    if ops != [] {
      OpKeeps(st, ops[0]);
      if Covered(st.log) {
        OpCovers(st, ops[0]);
      }
      RunRefines(Step(st, ops[0]), ops[1..]);
    }
  }

  // What every such run means for the reads.

  /**
    Reads of `[a, b)` inside the simple log are exact, a truncation pending or not, by
    whatever bounds say that range. (Log indexes are 64-bit.)
   */
  lemma ReadsAreExact<D>(st: Store<D>, lo: Bound, hi: Bound, a: nat, b: nat)
    requires Refines(st) && st.log.first <= a < b <= |st.log.history| && b < U64
    requires match lo case Included(s) => a == s case Excluded(s) => a == s + 1 case Unbounded => a == 0
    requires match hi case Included(e) => b == e + 1 case Excluded(e) => b == e case Unbounded => false
    ensures Entries(st.disk, lo, hi) == Ok(st.log.history[a..b])
  {
    assert !Bare(st);
    EntriesShown(st.view, st.disk, lo, hi, a, b);
    assert st.view.history[a..b] == st.log.history[a..b];
  }

  /** A read without an end asks for indexes up to 2^64 - 1, and every shorter log refuses it. */
  lemma OpenReadsFail<D>(st: Store<D>, lo: Bound)
    requires Refines(st) && |st.view.history| < U64 - 1
    ensures Entries(st.disk, lo, Unbounded) == Err(EntryNotFound)
  {
  }

  /** Only a log that reaches index 2^64 - 2 is read to its end that way. */
  lemma OpenReadsIff<D>(st: Store<D>, lo: Bound, a: nat)
    requires Refines(st) && !Bare(st) && st.disk.first <= a < U64 - 1
    requires match lo case Included(s) => a == s case Excluded(s) => a == s + 1 case Unbounded => a == 0
    ensures Entries(st.disk, lo, Unbounded).Ok? <==> U64 - 1 <= |st.view.history|
    ensures U64 - 1 <= |st.view.history| ==> Entries(st.disk, lo, Unbounded) == Ok(st.view.history[a..U64 - 1])
  {
    if U64 - 1 <= |st.view.history| {
      EntriesShown(st.view, st.disk, lo, Unbounded, a, U64 - 1);
    }
  }

  lemma EntriesShown<D>(v: View<D>, d: Disk<D>, lo: Bound, hi: Bound, a: nat, b: nat)
    requires Shows(v, d) && d.first <= a < b <= End(d) && StartOf(lo) == a && EndOf(hi) == b
    ensures Entries(d, lo, hi) == Ok(v.history[a..b])
  {
    EncodeCut(v.history, d.base, a, b);
    DecodesBack(v.history[a..b]);
  }

  /** Blobs filed under their entries' own indexes decode to `es` if and only if they are its encoding; one bad blob, and to nothing. */
  lemma DecodesIff<D>(bs: seq<Blob<D>>, es: seq<Entry<D>>)
    requires forall k | 0 <= k < |bs| && bs[k].data.EntryDoc? :: bs[k].index == bs[k].data.entry.logId.index
    ensures DecodeAll(bs) == Ok(es) <==> bs == EncodeAll(es)
  {
    DecodesBack(es);
    if DecodeAll(bs) == Ok(es) {
      forall k | 0 <= k < |bs| ensures bs[k] == EncodeAll(es)[k] {
        assert DecodeEntry(bs[k]) == Ok(es[k]);
      }
    }
  }

  lemma DecodesBack<D>(es: seq<Entry<D>>)
    ensures DecodeAll(EncodeAll(es)) == Ok(es)
  {
    var r := DecodeAll(EncodeAll(es));
    assert r.Ok?;
    forall k | 0 <= k < |es| ensures r.value[k] == es[k] {
      assert DecodeEntry(EncodeAll(es)[k]) == Ok(r.value[k]);
    }
    assert r.value == es;
  }

  /** With no truncation pending the log state is the simple log's, fully purged logs included. */
  lemma LogStateIsExact<D>(st: Store<D>)
    requires Refines(st) && !Pending(st)
    ensures LogStateOf(st.disk) == Ok(LogState(st.log.lastPurged, LastId(st.log.history)))
  {
    if !Bare(st) {
      assert st.view.history == st.log.history;
      LogStateShown(st.view, st.disk, st.log.lastPurged);
    }
  }

  lemma LogStateShown<D>(v: View<D>, d: Disk<D>, purged: Option<LogId>)
    requires Shows(v, d) && LastPurged(d) == Ok(purged)
    ensures LogStateOf(d) == Ok(LogState(purged, if Empty(d) then purged else LastId(v.history)))
  {
    if !Empty(d) {
      assert At(d, End(d) - 1) == EncodeEntry(v.history[v.base..][End(d) - 1 - d.base]);
    }
  }

  /** At every point, crashes included, the purge marker is at or below the last log id, and the committed id reads as saved. */
  lemma StartupChecksPass<D>(st: Store<D>)
    requires Refines(st)
    ensures LogStateOf(st.disk).Ok? && LogStateOf(st.disk).value.lastPurged == st.log.lastPurged
    ensures OptLe(st.log.lastPurged, LogStateOf(st.disk).value.lastLogId)
    ensures Committed(st.disk) == Ok(st.log.committed) && SavedVote(st.disk) == Ok(st.log.vote)
    ensures Covered(st.log) <==> OptLe(LogStateOf(st.disk).value.lastPurged, Committed(st.disk).value)
  {
    if !Bare(st) {
      LogStateShown(st.view, st.disk, st.log.lastPurged);
    }
    if !Empty(st.disk) {
      var h := st.view.history;
      if st.log.lastPurged.Some? {
        assert h[st.log.first - 1] == st.log.history[st.log.first - 1];
        assert LeaderLe(h[st.log.first - 1].logId.leader, h[|h| - 1].logId.leader);
      }
    }
  }

  /**
    A truncation takes effect with the append that follows it: the log then is what was
    left and the new entries, and that is all there is on disk, up to any start it is read from.
   */
  lemma TruncateThenAppend<D>(st: Store<D>, id: LogId, es: seq<Entry<D>>, a: nat)
    requires Refines(st) && Allowed(st, Truncate(id)) && es != []
    requires Numbered(es, id.index) && Ascending(es) && CanFollow(LastId(st.log.history[..id.index]), es)
    requires st.log.first <= a < id.index + |es| < U64
    ensures Allowed(Step(st, Truncate(id)), Append(es))
    ensures var after := Step(Step(st, Truncate(id)), Append(es));
            && Refines(after) && End(after.disk) == id.index + |es|
            && after.log.history == st.log.history[..id.index] + es
            && LogStateOf(after.disk) == Ok(LogState(st.log.lastPurged, Some(es[|es| - 1].logId)))
            && Entries(after.disk, Included(a), Excluded(id.index + |es|)) == Ok((st.log.history[..id.index] + es)[a..])
  {
    hide Step, Refines, Ascending, Numbered, CanFollow, Entries, LogStateOf;
    TruncateKeepsMarks(st, id);
    AppendAllowed(Step(st, Truncate(id)), es);
    hide Allowed;
    AppendedReads(Step(st, Truncate(id)), es, a);
  }

  lemma AppendedReads<D>(st: Store<D>, es: seq<Entry<D>>, a: nat)
    requires Refines(st) && Allowed(st, Append(es)) && es != []
    requires st.log.first <= a < |st.log.history| + |es| < U64
    ensures var after := Step(st, Append(es));
            && Refines(after) && Sound(after.disk) && End(after.disk) == |st.log.history| + |es|
            && after.log.history == st.log.history + es
            && LogStateOf(after.disk) == Ok(LogState(st.log.lastPurged, Some(es[|es| - 1].logId)))
            && Entries(after.disk, Included(a), Excluded(|st.log.history| + |es|)) == Ok((st.log.history + es)[a..])
  {
    hide Step, Refines, Allowed;
    AppendEnds(st, es);
    ReadsToEnd(Step(st, Append(es)), a);
  }

  lemma ReadsToEnd<D>(st: Store<D>, a: nat)
    requires Refines(st) && st.log.first <= a < |st.log.history| < U64
    ensures Sound(st.disk)
    ensures Entries(st.disk, Included(a), Excluded(|st.log.history|)) == Ok(st.log.history[a..])
  {
    ReadsAreExact(st, Included(a), Excluded(|st.log.history|), a, |st.log.history|);
    assert st.log.history[a..|st.log.history|] == st.log.history[a..];
  }

  lemma TruncateKeepsMarks<D>(st: Store<D>, id: LogId)
    requires Refines(st) && Allowed(st, Truncate(id))
    ensures var mid := Step(st, Truncate(id));
            Refines(mid) && mid.log == st.log.(history := st.log.history[..id.index]) && |mid.log.history| == id.index
  {
    StepKeeps(st, Truncate(id));
  }

  lemma AppendAllowed<D>(st: Store<D>, es: seq<Entry<D>>)
    requires Numbered(es, |st.log.history|) && Ascending(es) && CanFollow(LastId(st.log.history), es)
    ensures Allowed(st, Append(es))
  {
  }

  lemma AppendEnds<D>(st: Store<D>, es: seq<Entry<D>>)
    requires Refines(st) && Allowed(st, Append(es)) && es != []
    ensures var after := Step(st, Append(es));
            && Refines(after) && Sound(after.disk) && !Pending(after) && End(after.disk) == |st.log.history| + |es|
            && after.log == st.log.(history := st.log.history + es)
            && LogStateOf(after.disk) == Ok(LogState(st.log.lastPurged, Some(es[|es| - 1].logId)))
  {
    StepKeeps(st, Append(es));
    AppendEndsDisk(st, es);
    LogStateIsExact(Step(st, Append(es)));
  }

  lemma AppendEndsDisk<D>(st: Store<D>, es: seq<Entry<D>>)
    requires Refines(st) && Allowed(st, Append(es)) && es != []
    ensures End(Step(st, Append(es)).disk) == |st.log.history| + |es|
  {
    OpKeeps(st, Append(es));
  }

  /** A crash keeps the simple log and brings back, beyond its end, only what a pending truncation had cut. */
  lemma CrashBringsBackStale<D>(st: Store<D>, keep: nat)
    requires Refines(st) && Allowed(st, Crash(keep))
    ensures st.log.history <= Step(st, Crash(keep)).log.history == st.view.history
    ensures !Pending(st) ==> Step(st, Crash(keep)).log == st.log
    ensures !Pending(Step(st, Crash(keep)))
  {
    StepKeeps(st, Crash(keep));
  }

  /**
    Without any crash: a purge leaves the marker at or below the last log id exactly
    when it empties the disk or the last entry's id is not below it. It fails where
    stale entries of an older leader reach beyond the purged index.
   */
  lemma PurgeIff<D>(v: View<D>, d: Disk<D>, id: LogId)
    requires Shows(v, d)
    ensures var purged := Compacted(MarkedPurged(d, id), id.index + 1);
            && Sound(purged) && LogStateOf(purged).Ok? && LogStateOf(purged).value.lastPurged == Some(id)
            && (OptLe(Some(id), LogStateOf(purged).value.lastLogId) <==>
                  Empty(d) || End(d) <= id.index + 1 || OptLe(Some(id), LastId(v.history)))
  {
    var marked := MarkedPurged(d, id);
    var purged := Compacted(marked, id.index + 1);
    DropShows(v, d, d.first, marked.keys);
    LogStateShown(View(d.first, purged.first, v.history), purged, Some(id));
  }

  /** Three entries of one leader, purged up to a later leader's index 1: the marker ends above the last log id. */
  lemma StalePurgeExample<D>(payload: EntryPayload<D>)
    ensures var (l1, l2) := (LeaderId(1, 1), LeaderId(2, 1));
            var es := seq(3, k requires 0 <= k < 3 => Entry(LogId(l1, k), payload));
            && Add(NewDisk<D>(), EncodeAll(es)).Some?
            && var d := Add(NewDisk<D>(), EncodeAll(es)).value;
               && Sound(d) && Sound(MarkedPurged(d, LogId(l2, 1)))
               && LogStateOf(Compacted(MarkedPurged(d, LogId(l2, 1)), 2))
                  == Ok(LogState(Some(LogId(l2, 1)), Some(LogId(l1, 2))))
               && !OptLe(Some(LogId(l2, 1)), Some(LogId(l1, 2)))
  {
    var es := seq(3, k requires 0 <= k < 3 => Entry(LogId(LeaderId(1, 1), k), payload));
    AddShows(View(0, 0, []), NewDisk(), 0, es);
    var d := Add(NewDisk<D>(), EncodeAll(es)).value;
    PurgeIff(View(0, 0, [][..0] + es), d, LogId(LeaderId(2, 1), 1));
    assert [][..0] + es == es;
    DropShows(View(0, 0, es), d, 0, MarkedPurged(d, LogId(LeaderId(2, 1), 1)).keys);
    LogStateShown(View(0, 2, es), Compacted(MarkedPurged(d, LogId(LeaderId(2, 1), 1)), 2), Some(LogId(LeaderId(2, 1), 1)));
  }

  // A purge beyond the log's end, cut short by a crash.

  /** The disk after a purge to `id` whose compaction the crash undid down to `keep`. */
  ghost function Torn<D>(d: Disk<D>, id: LogId, keep: nat): Disk<D>
    requires Sound(d) && MayTear(d, id, keep)
  {
    Reopened(Compacted(MarkedPurged(d, id), id.index + 1), keep)
  }

  /** A crash between the purge's two steps, or soon after them, keeps reads from somewhere between old and new start. */
  ghost predicate MayTear(d: Disk, id: LogId, keep: nat)
    requires Sound(d)
  {
    d.first <= keep <= Compacted(MarkedPurged(d, id), id.index + 1).first
  }

  /**
    Such a crash leaves the marker at or below the last log id exactly when no
    entry survived or the log reached the purged id.
   */
  lemma TornPurgeIff<D>(v: View<D>, d: Disk<D>, id: LogId, keep: nat)
    requires Shows(v, d) && MayTear(d, id, keep)
    ensures var torn := LogStateOf(Torn(d, id, keep));
            && torn.Ok? && torn.value.lastPurged == Some(id)
            && (OptLe(Some(id), torn.value.lastLogId) <==> keep == End(d) || OptLe(Some(id), LastId(v.history)))
  {
    TornDisk(v, d, id, keep);
    LogStateShown(View(keep, keep, v.history), Torn(d, id, keep), Some(id));
  }

  lemma TornDisk<D>(v: View<D>, d: Disk<D>, id: LogId, keep: nat)
    requires Shows(v, d) && MayTear(d, id, keep)
    ensures var torn := Torn(d, id, keep);
            && Shows(View(keep, keep, v.history), torn)
            && End(torn) == End(d) && LastPurged(torn) == Ok(Some(id))
  {
    var marked := MarkedPurged(d, id);
    DropShows(v, d, d.first, marked.keys);
    DropShows(View(d.first, keep, v.history), marked.(first := keep), keep, marked.keys);
  }

  /** The next append after such a torn purge would leave a hole: the engine accepts it exactly when the log reached the purged id. */
  lemma AppendAfterTornPurgeIff<D>(v: View<D>, d: Disk<D>, id: LogId, keep: nat, e: Entry<D>)
    requires Shows(v, d) && MayTear(d, id, keep) && e.logId.index == id.index + 1 && d.first <= e.logId.index
    ensures Sound(Torn(d, id, keep))
    ensures Add(Torn(d, id, keep), EncodeAll([e])).Some? <==> keep == End(d) || id.index < End(d)
  {
    TornDisk(v, d, id, keep);
    assert EncodeAll([e])[0] == EncodeEntry(e);
  }

  /**
    The smallest such log: one entry, purged up to index 5, crash. The last log id
    is below the marker, and the engine refuses the entry behind the purged ones.
   */
  lemma TornPurgeExample<D>(leader: LeaderId, payload: EntryPayload<D>)
    ensures var e := Entry(LogId(leader, 0), payload);
            var d := Disk(0, [EncodeEntry(e)], 0, map[]);
            && Add(NewDisk<D>(), EncodeAll([e])) == Some(d)
            && Sound(d) && MayTear(d, LogId(leader, 5), 0)
            && var torn := Torn(d, LogId(leader, 5), 0);
               && Sound(torn) && LogStateOf(torn) == Ok(LogState(Some(LogId(leader, 5)), Some(LogId(leader, 0))))
               && !OptLe(Some(LogId(leader, 5)), Some(LogId(leader, 0)))
               && Add(torn, EncodeAll([Entry(LogId(leader, 6), payload)])) == None
  {
    var e := Entry(LogId(leader, 0), payload);
    assert EncodeAll([e]) == [EncodeEntry(e)];
    var d := Disk(0, [EncodeEntry(e)], 0, map[]);
    assert d.blobs[0..][0..] == d.blobs;
    assert EncodeAll([Entry(LogId(leader, 6), payload)])[0].index == 6;
  }
}

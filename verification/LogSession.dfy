/** The log store's objects, call by call, against the simple log. */
module LogSession {
  import opened Wrappers
  import opened Types
  import opened RaftEngine
  import opened LogStore
  import opened LogRefinement

  /**
    Any call that openraft may make leaves the engine's disk where the refinement
    says; `st` is the simple log and the view that go with the disk before the call.
   */
  method Call<D>(store: RaftEngineLogStore<D>, op: Op<D>, callback: LogFlushed, ghost st: Store<D>)
    requires Refines(st) && Allowed(st, op) && st.disk == store.engine.Value()
    requires op.Append? || op.Truncate? || op.SaveCommitted? || op.SaveVote?
    modifies store.engine, callback
    ensures store.engine.Value() == Step(st, op).disk
    ensures Refines(Step(st, op))
    ensures op.Append? ==> callback.completed == Some(true)
  {
    OpKeeps(st, op);
    match op {
      case Append(es) =>
        var ok := store.Append(es, callback);
        assert ok;
      case Truncate(id) => store.Truncate(id);
      case SaveCommitted(c) => store.SaveCommitted(c);
      case SaveVote(v) => store.SaveVote(v);
    }
  }

  /** A purge is its two steps; between them `st` may already crash, which the refinement covers. */
  method CallPurge<D>(store: RaftEngineLogStore<D>, id: LogId, ghost st: Store<D>)
    requires Refines(st) && Allowed(st, MarkPurged(id)) && st.disk == store.engine.Value()
    modifies store.engine
    ensures store.engine.Value() == Step(Step(st, MarkPurged(id)), Compact).disk
    ensures Refines(Step(Step(st, MarkPurged(id)), Compact))
  {
    PurgeSteps(st, id);
    store.Purge(id);
    OpKeeps(st, MarkPurged(id));
    PurgeDisk(st, id);
    hide Refines, Step, Allowed;
  }

  lemma PurgeSteps<D>(st: Store<D>, id: LogId)
    requires Refines(st) && Allowed(st, MarkPurged(id))
    ensures Refines(Step(Step(st, MarkPurged(id)), Compact))
  {
    OpKeeps(st, MarkPurged(id));
    assert Step(st, MarkPurged(id)).log.lastPurged == Some(id);
    hide Refines;
    OpKeeps(Step(st, MarkPurged(id)), Compact);
  }

  lemma PurgeDisk<D>(st: Store<D>, id: LogId)
    requires Sound(st.disk) && Sound(MarkedPurged(st.disk, id))
    ensures Step(Step(st, MarkPurged(id)), Compact).disk == Compacted(MarkedPurged(st.disk, id), id.index + 1)
  {
  }

  /** The purge that follows a snapshot installed beyond the log's end. */
  method CallPurgePast<D>(store: RaftEngineLogStore<D>, id: LogId, ghost covered: seq<Entry<D>>, ghost st: Store<D>)
    requires Refines(st) && Allowed(st, PurgePast(covered)) && st.disk == store.engine.Value()
    requires LastId(covered) == Some(id)
    modifies store.engine
    ensures store.engine.Value() == Step(st, PurgePast(covered)).disk
    ensures Refines(Step(st, PurgePast(covered)))
  {
    StepKeeps(st, PurgePast(covered));
    PurgePastDisk(st, id, covered);
    hide Refines, Step, Allowed;
    store.Purge(id);
  }

  lemma PurgePastDisk<D>(st: Store<D>, id: LogId, covered: seq<Entry<D>>)
    requires Sound(st.disk) && LastId(covered) == Some(id)
    ensures Step(st, PurgePast(covered)).disk == Compacted(MarkedPurged(st.disk, id), id.index + 1)
  {
  }

  /** What a restarted node reads first: the crash loses unsynced compactions, and the start-up checks pass. */
  method Restart<D>(store: RaftEngineLogStore<D>, keep: nat, ghost st: Store<D>)
    returns (state: Result<LogState, StorageError>, committed: Result<Option<LogId>, StorageError>)
    requires Refines(st) && Allowed(st, Crash(keep)) && st.disk == store.engine.Value()
    modifies store.engine
    ensures store.engine.Value() == Step(st, Crash(keep)).disk
    ensures state == Ok(LogState(st.log.lastPurged, LastId(st.view.history)))
    ensures committed == Ok(st.log.committed)
    ensures OptLe(st.log.lastPurged, LastId(st.view.history))
    ensures Covered(st.log) ==> OptLe(state.value.lastPurged, committed.value)
  {
    OpKeeps(st, Crash(keep));
    CrashBringsBackStale(st, keep);
    LogStateIsExact(Step(st, Crash(keep)));
    StartupChecksPass(Step(st, Crash(keep)));
    store.engine.Reopen(keep);
    state := store.GetLogState();
    committed := store.ReadCommitted();
  }
}

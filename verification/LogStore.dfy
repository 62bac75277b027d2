/** The durable log store over raft-engine, and what its reads mean on a disk. */
module LogStore {
  import opened Wrappers
  import opened Types
  import opened RaftEngine

  const VOTE_KEY := "vote"
  const LAST_PURGED_KEY := "last_purged"
  const COMMITTED_KEY := "committed"

  datatype LogState = LogState(lastPurged: Option<LogId>, lastLogId: Option<LogId>)

  datatype Bound = Included(at: u64) | Excluded(at: u64) | Unbounded

  function EncodeEntry<D>(e: Entry<D>): Blob<D> {
    Blob(e.logId.index, EntryDoc(e))
  }

  function DecodeEntry<D>(b: Blob<D>): Result<Entry<D>, StorageError> {
    if b.data.EntryDoc? then Ok(b.data.entry) else Err(Malformed)
  }

  function EncodeAll<D>(es: seq<Entry<D>>): (bs: seq<Blob<D>>)
    ensures |bs| == |es| && forall k | 0 <= k < |es| :: bs[k] == EncodeEntry(es[k])
  {
    seq(|es|, k requires 0 <= k < |es| => EncodeEntry(es[k]))
  }

  /** All entries, or an error: there is one kind of decoding error. */
  function DecodeAll<D>(bs: seq<Blob<D>>): (r: Result<seq<Entry<D>>, StorageError>)
    ensures r.Ok? <==> forall k | 0 <= k < |bs| :: bs[k].data.EntryDoc?
    ensures r.Ok? ==> |r.value| == |bs| && forall k | 0 <= k < |bs| :: DecodeEntry(bs[k]) == Ok(r.value[k])
  {
    if forall k | 0 <= k < |bs| :: bs[k].data.EntryDoc?
    then Ok(seq(|bs|, k requires 0 <= k < |bs| => bs[k].data.entry))
    else Err(Malformed)
  }

  /** An id is written as an object, and a missing one as `null`. */
  function OptionDoc<D>(id: Option<LogId>): Json<D> {
    if id.Some? then LogIdDoc(id.value) else Null
  }

  function StartOf(b: Bound): nat {
    match b
    case Included(s) => s
    case Excluded(s) => Bump(s)
    case Unbounded => 0
  }

  function EndOf(b: Bound): nat {
    match b
    case Included(e) => Bump(e)
    case Excluded(e) => e
    case Unbounded => U64 - 1
  }

  // What the reads return for a disk.

  function LastPurged(d: Disk): Result<Option<LogId>, StorageError> {
    if LAST_PURGED_KEY !in d.keys then Ok(None)
    else if d.keys[LAST_PURGED_KEY].data.LogIdDoc? then Ok(Some(d.keys[LAST_PURGED_KEY].data.id))
    else Err(Malformed)
  }

  function Committed(d: Disk): Result<Option<LogId>, StorageError> {
    if COMMITTED_KEY !in d.keys then Ok(None)
    else match d.keys[COMMITTED_KEY].data
      case Null => Ok(None)
      case LogIdDoc(id) => Ok(Some(id))
      case _ => Err(Malformed)
  }

  function SavedVote(d: Disk): Result<Option<Vote>, StorageError> {
    if VOTE_KEY !in d.keys then Ok(None)
    else if d.keys[VOTE_KEY].data.VoteDoc? then Ok(Some(d.keys[VOTE_KEY].data.vote))
    else Err(Malformed)
  }

  /** A key reads as what was written under it, as nothing where it is missing, and anything else under it is an error. */
  lemma SavedReadsIff(d: Disk, id: Option<LogId>, vote: Option<Vote>)
    ensures LastPurged(d) == Ok(id) <==>
              if id.None? then LAST_PURGED_KEY !in d.keys
              else LAST_PURGED_KEY in d.keys && d.keys[LAST_PURGED_KEY].data == LogIdDoc(id.value)
    ensures Committed(d) == Ok(id) <==>
              (COMMITTED_KEY in d.keys && d.keys[COMMITTED_KEY].data == OptionDoc(id)) || (id.None? && COMMITTED_KEY !in d.keys)
    ensures SavedVote(d) == Ok(vote) <==>
              if vote.None? then VOTE_KEY !in d.keys
              else VOTE_KEY in d.keys && d.keys[VOTE_KEY].data == VoteDoc(vote.value)
  {
  }

  function LogStateOf(d: Disk): Result<LogState, StorageError>
    requires Sound(d)
  {
    var purged :- LastPurged(d);
    if Empty(d) then Ok(LogState(purged, purged)) else
      var last :- DecodeEntry(At(d, End(d) - 1));
      Ok(LogState(purged, Some(last.logId)))
  }

  function Entries<D>(d: Disk<D>, lo: Bound, hi: Bound): Result<seq<Entry<D>>, StorageError>
    requires Sound(d)
  {
    var blobs :- Fetch(d, StartOf(lo), EndOf(hi));
    DecodeAll(blobs)
  }

  // The first of purge's two steps; the second is a compaction.
  function MarkedPurged<D>(d: Disk<D>, id: LogId): Disk<D>
    requires Sound(d)
  {
    Put(d, LAST_PURGED_KEY, Blob(0, LogIdDoc(id)))
  }

  /** What `append` reports to openraft: whether the entries are on disk. */
  class LogFlushed {
    var completed: Option<bool>

    constructor ()
      ensures completed == None
    {
      completed := None;
    }

    method LogIoCompleted(ok: bool)
      modifies this
      ensures completed == Some(ok)
    {
      completed := Some(ok);
    }
  }

  class RaftEngineLogStore<D> {
    const engine: Engine<D>

    constructor (engine: Engine<D>)
      ensures this.engine == engine
    {
      this.engine := engine;
    }

    /** Readers are clones that share the engine. */
    method GetLogReader() returns (reader: RaftEngineLogStore<D>)
      ensures fresh(reader) && reader.engine == engine
    {
      reader := new RaftEngineLogStore(engine);
    }

    method TryGetLogEntries(lo: Bound, hi: Bound) returns (r: Result<seq<Entry<D>>, StorageError>)
      requires Sound(engine.Value())
      ensures r == Entries(engine.Value(), lo, hi)
    {
      var blobs :- engine.FetchEntriesTo(StartOf(lo), EndOf(hi));
      r := DecodeAll(blobs);
    }

    method GetLogState() returns (r: Result<LogState, StorageError>)
      requires Sound(engine.Value())
      ensures r == LogStateOf(engine.Value())
    {
      var purged := None;
      var marker := engine.GetMessage(LAST_PURGED_KEY);
      if marker.Some? {
        if !marker.value.data.LogIdDoc? {
          return Err(Malformed);
        }
        purged := Some(marker.value.data.id);
      }
      var lastLogId := None;
      var lastIndex := engine.LastIndex();
      if lastIndex.Some? {
        var blob := engine.GetEntry(lastIndex.value);
        if blob.Some? {
          var entry :- DecodeEntry(blob.value);
          lastLogId := Some(entry.logId);
        }
      }
      r := Ok(LogState(purged, if lastLogId.Some? then lastLogId else purged));
    }

    method SaveVote(vote: Vote)
      requires Sound(engine.Value())
      modifies engine
      ensures engine.Value() == Put(old(engine.Value()), VOTE_KEY, Blob(0, VoteDoc(vote)))
      ensures SavedVote(engine.Value()) == Ok(Some(vote))
    {
      engine.WriteMessage(VOTE_KEY, Blob(0, VoteDoc(vote)));
    }

    method SaveCommitted(committed: Option<LogId>)
      requires Sound(engine.Value())
      modifies engine
      ensures engine.Value() == Put(old(engine.Value()), COMMITTED_KEY, Blob(0, OptionDoc(committed)))
      ensures Committed(engine.Value()) == Ok(committed)
    {
      engine.WriteMessage(COMMITTED_KEY, Blob(0, OptionDoc(committed)));
    }

    method ReadCommitted() returns (r: Result<Option<LogId>, StorageError>)
      ensures r == Committed(engine.Value())
    {
      var blob := engine.GetMessage(COMMITTED_KEY);
      match blob
      case None => r := Ok(None);
      case Some(b) =>
        match b.data
        case Null => r := Ok(None);
        case LogIdDoc(id) => r := Ok(Some(id));
        case VoteDoc(_) => r := Err(Malformed);
        case EntryDoc(_) => r := Err(Malformed);
    }

    method ReadVote() returns (r: Result<Option<Vote>, StorageError>)
      ensures r == SavedVote(engine.Value())
    {
      var blob := engine.GetMessage(VOTE_KEY);
      if blob.None? {
        return Ok(None);
      }
      r := if blob.value.data.VoteDoc? then Ok(Some(blob.value.data.vote)) else Err(Malformed);
    }

    /** `false` is an error: a panic of the engine on its thread is returned and reported as one. */
    method Append(entries: seq<Entry<D>>, callback: LogFlushed) returns (ok: bool)
      requires Sound(engine.Value())
      modifies engine, callback
      ensures ok <==> Add(old(engine.Value()), EncodeAll(entries)).Some?
      ensures engine.Value() ==
              if ok then Add(old(engine.Value()), EncodeAll(entries)).value else old(engine.Value())
      ensures Sound(engine.Value())
      ensures callback.completed == Some(ok)
    {
      ok := engine.WriteEntries(EncodeAll(entries));
      callback.LogIoCompleted(ok);
    }

    /** Does nothing: the next append drops the conflicting suffix. */
    method Truncate(logId: LogId)
      ensures engine.Value() == old(engine.Value())
    {
      var _ := logId;
    }

    method Purge(logId: LogId)
      requires Sound(engine.Value())
      modifies engine
      ensures engine.Value() == Compacted(MarkedPurged(old(engine.Value()), logId), logId.index + 1)
      ensures Sound(engine.Value())
    {
      engine.WriteMessage(LAST_PURGED_KEY, Blob(0, LogIdDoc(logId)));
      engine.CompactTo(logId.index + 1);
    }
  }
}

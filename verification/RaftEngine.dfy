/**
  The contract of the raft-engine library that the log store relies on: a run of
  blobs with consecutive indexes, a key-value map, and what of both survives a crash.
 */
module RaftEngine {
  import opened Wrappers
  import opened Types

  datatype Vote = Vote(leader: LeaderId, committed: bool)

  /** A JSON document, up to its text: encoding is taken to be injective. */
  datatype Json<+D> = Null | LogIdDoc(id: LogId) | VoteDoc(vote: Vote) | EntryDoc(entry: Entry<D>)

  datatype Blob<+D> = Blob(index: u64, data: Json<D>)

  datatype StorageError = EntryNotFound | EntryCompacted | Malformed

  /**
    `blobs` start at index `base` and are on disk. Reads see those from `first` on:
    a compaction is not synced, so until the next synced write a crash may lose it.
   */
  datatype Disk<+D> = Disk(base: nat, blobs: seq<Blob<D>>, first: nat, keys: map<string, Blob<D>>)

  function NewDisk<D>(): Disk<D> {
    Disk(0, [], 0, map[])
  }

  predicate Sound(d: Disk) {
    && d.base <= d.first <= End(d)
    && forall k | 0 <= k < |d.blobs| :: d.blobs[k].index == d.base + k
  }

  function End(d: Disk): nat {
    d.base + |d.blobs|
  }

  predicate Empty(d: Disk) {
    d.first == End(d)
  }

  function At<D>(d: Disk<D>, i: nat): Blob<D>
    requires d.base <= i < End(d)
  {
    d.blobs[i - d.base]
  }

  /** A synced write carries everything before it to disk, compactions included. */
  function Synced<D>(d: Disk<D>): Disk<D>
    requires Sound(d)
  {
    Disk(d.first, d.blobs[d.first - d.base..], d.first, d.keys)
  }

  function Put<D>(d: Disk<D>, key: string, blob: Blob<D>): Disk<D>
    requires Sound(d)
  {
    Synced(d).(keys := d.keys[key := blob])
  }

  /** Whatever lies at or above the first new index is dropped; holes and compacted indexes are refused (`None`). */
  function Add<D>(d: Disk<D>, blobs: seq<Blob<D>>): Option<Disk<D>>
    requires Sound(d)
  {
    if blobs == [] then Some(d) else
      var start := blobs[0].index;
      if exists k | 0 <= k < |blobs| :: blobs[k].index != start + k then None
      else if Empty(d) then Some(Disk(start, blobs, start, d.keys))
      else if start < d.first || End(d) < start then None
      else Some(Disk(d.first, d.blobs[d.first - d.base..start - d.base] + blobs, d.first, d.keys))
  }

  function Compacted<D>(d: Disk<D>, index: nat): Disk<D> {
    d.(first := if index <= d.first then d.first else if index <= End(d) then index else End(d))
  }

  /** A crash keeps all synced writes; compactions since then may be undone back to `keep`. */
  function Reopened<D>(d: Disk<D>, keep: nat): Disk<D>
    requires Sound(d) && d.base <= keep <= d.first
  {
    Disk(keep, d.blobs[keep - d.base..], keep, d.keys)
  }

  function Fetch<D>(d: Disk<D>, start: nat, end: nat): Result<seq<Blob<D>>, StorageError>
    requires Sound(d)
  {
    if start >= end || Empty(d) || End(d) < end then Err(EntryNotFound)
    else if start < d.first then Err(EntryCompacted)
    else Ok(d.blobs[start - d.base..end - d.base])
  }

  class Engine<D> {
    var base: nat
    var blobs: seq<Blob<D>>
    var first: nat
    var keys: map<string, Blob<D>>

    ghost function Value(): Disk<D>
      reads this
    {
      Disk(base, blobs, first, keys)
    }

    constructor ()
      ensures Value() == NewDisk()
    {
      base, blobs, first, keys := 0, [], 0, map[];
    }

    /** Writes a batch of one message, synced. */
    method WriteMessage(key: string, blob: Blob<D>)
      requires Sound(Value())
      modifies this
      ensures Value() == Put(old(Value()), key, blob)
      ensures Sound(Value())
    {
      blobs := blobs[first - base..];
      base := first;
      keys := keys[key := blob];
    }

    /** Writes a batch of entries, synced. `false` stands for the engine's panic. */
    method WriteEntries(es: seq<Blob<D>>) returns (ok: bool)
      requires Sound(Value())
      modifies this
      ensures ok <==> Add(old(Value()), es).Some?
      ensures Value() == if ok then Add(old(Value()), es).value else old(Value())
      ensures Sound(Value())
    {
      if es == [] {
        return true;
      }
      var start := es[0].index;
      for k := 0 to |es|
        invariant forall j | 0 <= j < k :: es[j].index == start + j
      {
        if es[k].index != start + k {
          return false;
        }
      }
      var end := base + |blobs|;
      if first == end {
        base, first, blobs := start, start, es;
      } else if start < first || end < start {
        return false;
      } else {
        blobs := blobs[first - base..start - base] + es;
        base := first;
      }
      return true;
    }

    method CompactTo(index: nat)
      requires Sound(Value())
      modifies this`first
      ensures Value() == Compacted(old(Value()), index)
      ensures Sound(Value())
    {
      var end := base + |blobs|;
      if first < index {
        first := if index <= end then index else end;
      }
    }

    /** The process dies and the directory is opened again; unsynced compactions survive down to `keep`. */
    method Reopen(keep: nat)
      requires Sound(Value()) && base <= keep <= first
      modifies this
      ensures Value() == Reopened(old(Value()), keep)
      ensures Sound(Value())
    {
      blobs := blobs[keep - base..];
      base, first := keep, keep;
    }

    function GetMessage(key: string): Option<Blob<D>>
      reads this
    {
      if key in keys then Some(keys[key]) else None
    }

    function LastIndex(): Option<nat>
      requires Sound(Value())
      reads this
    {
      if first == base + |blobs| then None else Some(base + |blobs| - 1)
    }

    function GetEntry(index: nat): Option<Blob<D>>
      requires Sound(Value())
      reads this
    {
      if first <= index < base + |blobs| then Some(blobs[index - base]) else None
    }

    function FetchEntriesTo(start: nat, end: nat): (r: Result<seq<Blob<D>>, StorageError>)
      requires Sound(Value())
      reads this
      ensures r == Fetch(Value(), start, end)
    {
      if start >= end || first == base + |blobs| || base + |blobs| < end then Err(EntryNotFound)
      else if start < first then Err(EntryCompacted)
      else Ok(blobs[start - base..end - base])
    }
  }
}

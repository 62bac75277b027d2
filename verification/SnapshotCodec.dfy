/**
  The snapshot payload as a JSON document: an object is the list of its members
  in the order the writer's map iterated, and reading inserts them one by one.
 */
module SnapshotCodec {
  import opened Types
  import opened QueueModel

  datatype SnapshotPayload = SnapshotPayload(queues: seq<(string, seq<Message>)>, nextOffset: seq<(string, u64)>)

  /** Reading an object back: members are inserted in order, so a repeated key keeps its last value. */
  function FromMembers<V>(ms: seq<(string, V)>): map<string, V> {
    if ms == [] then map[] else FromMembers(ms[..|ms| - 1])[ms[|ms| - 1].0 := ms[|ms| - 1].1]
  }

  function Decode(p: SnapshotPayload): Queues {
    Queues(FromMembers(p.queues), FromMembers(p.nextOffset))
  }

  /** `ms` is some iteration of `m`: every binding once, nothing else. */
  ghost predicate Iterates<V>(ms: seq<(string, V)>, m: map<string, V>) {
    && (forall i, j | 0 <= i < j < |ms| :: ms[i].0 != ms[j].0)
    && (forall i | 0 <= i < |ms| :: ms[i].0 in m && m[ms[i].0] == ms[i].1)
    && (forall k | k in m :: exists i :: 0 <= i < |ms| && ms[i].0 == k)
  }

  /** `p` is one of the documents that a snapshot of `s` may be written as. */
  ghost predicate Encodes(p: SnapshotPayload, s: Queues) {
    Iterates(p.queues, s.queues) && Iterates(p.nextOffset, s.nextOffset)
  }

  lemma {:induction false} FromMembersFinds<V>(ms: seq<(string, V)>, m: map<string, V>)
    requires forall i, j | 0 <= i < j < |ms| :: ms[i].0 != ms[j].0
    requires forall i | 0 <= i < |ms| :: ms[i].0 in m && m[ms[i].0] == ms[i].1
    ensures forall i | 0 <= i < |ms| :: ms[i].0 in FromMembers(ms)
    ensures forall k | k in FromMembers(ms) ::
              && k in m && FromMembers(ms)[k] == m[k]
              && exists i :: 0 <= i < |ms| && ms[i].0 == k
  {
    if ms != [] {
      var front := ms[..|ms| - 1];
      FromMembersFinds(front, m);
      forall i | 0 <= i < |ms| ensures ms[i].0 in FromMembers(ms) {
        assert i < |front| ==> front[i] == ms[i];
      }
      forall k | k in FromMembers(ms)
        ensures k in m && FromMembers(ms)[k] == m[k] && exists i :: 0 <= i < |ms| && ms[i].0 == k
      {
        if k != ms[|ms| - 1].0 {
          var i :| 0 <= i < |front| && front[i].0 == k;
          assert ms[i].0 == k;
        }
      }
    }
  }

  lemma MembersRoundTrip<V>(ms: seq<(string, V)>, m: map<string, V>)
    requires Iterates(ms, m)
    ensures FromMembers(ms) == m
  {
    FromMembersFinds(ms, m);
  }

  /** Whatever the iteration order, a snapshot reads back as the state it was taken of. */
  lemma RoundTrip(p: SnapshotPayload, s: Queues)
    requires Encodes(p, s)
    ensures Decode(p) == s
  {
    MembersRoundTrip(p.queues, s.queues);
    MembersRoundTrip(p.nextOffset, s.nextOffset);
  }

  /** Documents may differ between equal replicas, but they decode alike exactly when the states are equal. */
  lemma DocumentsAgreeIff(p: SnapshotPayload, s: Queues, p': SnapshotPayload, s': Queues)
    requires Encodes(p, s) && Encodes(p', s')
    ensures Decode(p) == Decode(p') <==> s == s'
  {
    RoundTrip(p, s);
    RoundTrip(p', s');
  }

  /** A state with two queues or more has several documents: moving the first queue to the end gives another. */
  lemma OtherDocument(p: SnapshotPayload, s: Queues)
    requires Encodes(p, s) && |p.queues| >= 2
    ensures var p' := p.(queues := p.queues[1..] + [p.queues[0]]);
            Encodes(p', s) && p' != p && Decode(p') == Decode(p)
  {
    IteratesRotated(p.queues, s.queues);
    assert (p.queues[1..] + [p.queues[0]])[0] == p.queues[1];
    RoundTrip(p, s);
    RoundTrip(p.(queues := p.queues[1..] + [p.queues[0]]), s);
    hide Iterates;
  }

  lemma IteratesRotated<V>(ms: seq<(string, V)>, m: map<string, V>)
    requires Iterates(ms, m) && |ms| >= 2
    ensures Iterates(ms[1..] + [ms[0]], m) && ms[0].0 != ms[1].0
  {
    var ms', n := ms[1..] + [ms[0]], |ms|;
    assert forall i | 0 <= i < n :: ms'[i] == if i == n - 1 then ms[0] else ms[i + 1];
    forall k | k in m ensures exists i :: 0 <= i < |ms'| && ms'[i].0 == k {
      var i :| 0 <= i < n && ms[i].0 == k;
      assert ms'[if i == 0 then n - 1 else i - 1].0 == k;
    }
  }

  /** Walks a map in whatever order it yields its keys. */
  method Members<V>(m: map<string, V>) returns (ms: seq<(string, V)>)
    ensures Iterates(ms, m)
  {
    ms := [];
    var left := m.Keys;
    while left != {}
      invariant left <= m.Keys
      invariant forall i | 0 <= i < |ms| :: ms[i].0 in m && ms[i].0 !in left && m[ms[i].0] == ms[i].1
      invariant forall i, j | 0 <= i < j < |ms| :: ms[i].0 != ms[j].0
      invariant forall k | k in m && k !in left :: exists i :: 0 <= i < |ms| && ms[i].0 == k
      decreases left
    {
      var k :| k in left;
      ghost var before := ms;
      ms := ms + [(k, m[k])];
      left := left - {k};
      assert ms[|before|].0 == k;
      forall k' | k' in m && k' !in left ensures exists i :: 0 <= i < |ms| && ms[i].0 == k' {
        if k' != k {
          var i :| 0 <= i < |before| && before[i].0 == k';
          assert ms[i].0 == k';
        }
      }
    }
  }
}

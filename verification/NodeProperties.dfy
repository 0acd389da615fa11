/** What one replica promises on its own, for every state and every request. */
module NodeProperties {
  import opened Types
  import opened Logs
  import opened Replicas

  // ------------------------------------------------------------- append entries

  /** Everything stored agrees with what was sent, so a second merge finds
      nothing to do. */
  lemma MergeIdempotent(log: Log, prev: nat, entries: seq<LogEntry>)
    requires prev <= |log|
    ensures prev <= |Merge(log, prev, entries)|
    ensures Merge(Merge(log, prev, entries), prev, entries) == Merge(log, prev, entries)
    ensures Merge(log, prev, entries)[..prev] == log[..prev]
  {
    hide Overlap;
    var k := Overlap(log, prev, entries);
    var once := Splice(log, prev, entries, k);
    assert forall i :: 0 <= i < |entries| ==> once[prev + i].term == entries[i].term;
    OverlapUnique(once, prev, entries, |entries|);
  }

  /** Delivering an accepted request again changes nothing at all. */
  lemma AppendIdempotent(r: Replica, q: AppendRequest)
    requires HandleAppend(r, q).1
    ensures HandleAppend(HandleAppend(r, q).0, q) == HandleAppend(r, q)
  {
    hide Merge, ApplyAll;
    MergeIdempotent(r.log, q.prevLogIndex, q.entries);
    var merged := Merge(r.log, q.prevLogIndex, q.entries);
    assert q.prevLogIndex > 0 ==> merged[..q.prevLogIndex][q.prevLogIndex - 1] == merged[q.prevLogIndex - 1];
  }

  /** The first incoming entry that is not already stored lies beyond the commit
      index, or there is none. */
  predicate NoConflictBelowCommit(r: Replica, q: AppendRequest)
    requires q.prevLogIndex <= |r.log|
  {
    var k := Overlap(r.log, q.prevLogIndex, q.entries);
    k < |q.entries| ==> r.commitIndex <= q.prevLogIndex + k
  }

  /** The committed part of the log survives an accepted request exactly when
      no conflict occurs at or below the commit index. */
  lemma CommittedPrefixKeptIff(r: Replica, q: AppendRequest)
    requires Ordered(r) && HandleAppend(r, q).1
    ensures r.log[..r.commitIndex] <= HandleAppend(r, q).0.log <==> NoConflictBelowCommit(r, q)
  {
    hide Overlap, ApplyAll;
    var k := Overlap(r.log, q.prevLogIndex, q.entries);
    var c := q.prevLogIndex + k;
    var after := HandleAppend(r, q).0.log;
    assert after == Splice(r.log, q.prevLogIndex, q.entries, k);
    if k < |q.entries| && c < r.commitIndex {
      assert after[c] == q.entries[k] && r.log[..r.commitIndex][c] == r.log[c];
    }
  }

  /** In that case the indices stay in order and never go down, and the table
      stays the replay of the applied entries. */
  lemma AppendKeepsOrder(r: Replica, q: AppendRequest)
    requires Ordered(r) && HandleAppend(r, q).1 && NoConflictBelowCommit(r, q)
    ensures
      var r' := HandleAppend(r, q).0;
      && Ordered(r') && r.commitIndex <= r'.commitIndex && r.lastApplied <= r'.lastApplied
      && (r.table == Replay(r.log[..r.lastApplied]) ==> r'.table == Replay(r'.log[..r'.lastApplied]))
  {
    hide Overlap, Merge, CommitTo;
    CommittedPrefixKeptIff(r, q);
    var merged := Merge(r.log, q.prevLogIndex, q.entries);
    MergedLog(r, q);
    assert merged[..r.lastApplied] == r.log[..r.commitIndex][..r.lastApplied] == r.log[..r.lastApplied];
    var stored := AdoptTerm(r, q.term).(log := merged);
    if q.leaderCommit > r.commitIndex {
      CommitToReplays(stored, if q.leaderCommit <= |merged| then q.leaderCommit else |merged|);
    }
  }

  /** For order alone a conflict below the commit index does no harm as long as
      the request fills the log up to the commit index again: the indices stay
      in order and never go down exactly when the request stores nothing new or
      reaches the commit index. */
  lemma OrderKeptIff(r: Replica, q: AppendRequest)
    requires Ordered(r) && HandleAppend(r, q).1
    ensures
      var r' := HandleAppend(r, q).0;
      Ordered(r') && r.commitIndex <= r'.commitIndex && r.lastApplied <= r'.lastApplied <==>
      || Overlap(r.log, q.prevLogIndex, q.entries) == |q.entries|
      || r.commitIndex <= q.prevLogIndex + |q.entries|
  {
    hide Overlap, ApplyAll;
    MergedLog(r, q);
  }

  lemma MergedLog(r: Replica, q: AppendRequest)
    requires HandleAppend(r, q).1
    ensures HandleAppend(r, q).0.log == Merge(r.log, q.prevLogIndex, q.entries)
  {
    hide Merge, ApplyAll;
  }

  /** A conflict below the commit index can move the commit index backwards. */
  lemma ConflictBelowCommitExample()
    ensures
      var e := LogEntry(1, "k", "v");
      var r := Fresh("a", {"b", "c"}).(term := 1, log := [e, e], commitIndex := 2);
      var q := AppendRequest(2, "a", 0, 0, [LogEntry(2, "k", "w")], 3);
      && Ordered(r) && HandleAppend(r, q).1 && !NoConflictBelowCommit(r, q)
      && HandleAppend(r, q).0.commitIndex == 1
  {
  }

  // ----------------------------------------------------------- commit and apply

  /** Applying up to a commit index keeps the table equal to a replay. */
  lemma CommitToReplays(r: Replica, c: nat)
    requires r.lastApplied <= r.commitIndex <= c <= |r.log|
    ensures
      var r' := CommitTo(r, c);
      && Ordered(r') && r'.commitIndex == c && r'.log == r.log && r.lastApplied <= r'.lastApplied
      && (r.table == Replay(r.log[..r.lastApplied]) ==> r'.table == Replay(r'.log[..r'.lastApplied]))
  {
    ApplyAllConcat(map[], r.log[..r.lastApplied], r.log[r.lastApplied..c]);
    assert r.log[..r.lastApplied] + r.log[r.lastApplied..c] == r.log[..c];
  }

  /** What a read returns: the value of the greatest applied index with the key,
      or nothing when no applied entry has it. */
  lemma GetIsLatestApplied(r: Replica, key: string)
    requires r.lastApplied <= |r.log| && r.table == Replay(r.log[..r.lastApplied])
    ensures key in r.table <==> exists i :: LastWrite(r.log[..r.lastApplied], key, i)
    ensures forall i :: LastWrite(r.log[..r.lastApplied], key, i) ==> r.table[key] == r.log[i].value
  {
    ApplyAllLookup(map[], r.log[..r.lastApplied], key);
  }

  /** `lastApplied` is saved after the loop only: stopping anywhere in it and
      running it again from the saved index gives the state of one full pass. */
  lemma InterruptedApply(r: Replica, stop: nat)
    requires Ordered(r) && r.lastApplied <= stop <= r.commitIndex
    ensures ApplyCommitted(r.(table := ApplyAll(r.table, r.log[r.lastApplied..stop]))) == ApplyCommitted(r)
  {
    var pending := r.log[r.lastApplied..r.commitIndex];
    InterruptedApplyIsHarmless(r.table, pending, stop - r.lastApplied);
    assert pending[..stop - r.lastApplied] == r.log[r.lastApplied..stop];
  }

  /** The commit loop moves the commit index to the maximum of its old value and
      the greatest index of the current term that a quorum has acknowledged. */
  lemma CommitTargetIsMaximum(r: Replica, c: nat)
    requires r.commitIndex <= |r.log|
    ensures UpdateCommit(r).commitIndex == c <==>
            && (c == r.commitIndex || Committable(r, c))
            && (forall n: nat :: Committable(r, n) ==> n <= c)
            && r.commitIndex <= c
  {
    hide Committable;
    var top := HighestCommittable(r, |r.log|);
    CommittableInLog(r);
  }

  lemma CommittableInLog(r: Replica)
    ensures forall n: nat :: Committable(r, n) ==> r.commitIndex < n <= |r.log|
  {
  }

  /** A quorum for an index is a quorum for every smaller one. */
  lemma QuorumForSmaller(r: Replica, m: nat, n: nat)
    requires m <= n && IsQuorumCount(r.peers, ReplicationCount(r.matchIndex, n))
    ensures IsQuorumCount(r.peers, ReplicationCount(r.matchIndex, m))
  {
    ReplicationCountAntitone(r.matchIndex, m, n);
  }

  // -------------------------------------------------------------- leadership

  /** A new leader starts every peer at the end of its own log: the first request
      carries no entries, describes the last one, and no peer is counted for any
      index. */
  lemma FirstRequestIsEmpty(r: Replica, follower: NodeId, n: nat)
    requires follower in r.peers && r.matchIndex.Keys <= r.peers && n > 0
    ensures
      var l := BecomeLeader(r);
      && CanSend(l, follower)
      && BuildAppend(l, follower) ==
           AppendRequest(r.term, follower, |r.log|, LastTerm(r.log), [], r.commitIndex)
      && ReplicationCount(l.matchIndex, n) == 1
  {
    var l := BecomeLeader(r);
    assert (set f | f in l.matchIndex && l.matchIndex[f] >= n) == {};
  }
}

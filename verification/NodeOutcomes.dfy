/** What each operation of a node leaves in every field, in terms of the fields it
    started from. */
module NodeOutcomes {
  import opened Types
  import opened Logs
  import opened Replicas

  // -------------------------------------------------------------- elections

  /** A node starting an election votes for itself in the next term; its ballot
      describes the end of its log. */
  lemma StartElectionOutcome(r: Replica)
    ensures
      var r' := StartElection(r);
      && r' == r.(role := r'.role, term := r'.term, votedFor := r'.votedFor)
      && r'.role == Candidate && r'.term == r.term + 1 && r'.votedFor == Some(r.id)
    ensures
      var b := BallotOf(r);
      && b.term == r.term && b.candidateId == r.id && b.lastLogIndex == |r.log|
      && (|r.log| == 0 ==> b.lastLogTerm == 0)
      && (|r.log| > 0 ==> b.lastLogTerm == r.log[|r.log| - 1].term)
  {
  }

  /** Everything but role, term and vote is as before. */
  predicate SameButRole(r: Replica, r': Replica) {
    r' == r.(role := r'.role, term := r'.term, votedFor := r'.votedFor)
  }

  /** A reply with a higher term makes the node a follower of that term without a
      vote, and grants nothing; any other reply leaves the node alone. */
  lemma VoteReplyOutcome(r: Replica, reply: VoteReply)
    ensures
      var (r', granted) := HandleVoteReply(r, reply);
      && SameButRole(r, r')
      && (reply.term > r.term ==>
            r'.role == Follower && r'.term == reply.term && r'.votedFor == None && !granted)
      && (reply.term <= r.term ==> r' == r && granted == reply.voteGranted)
  {
  }

  /** A winner starts every peer at the end of its own log with nothing
      acknowledged, and keeps all else. */
  lemma BecomeLeaderOutcome(r: Replica)
    ensures
      var r' := BecomeLeader(r);
      && r' == r.(role := Leader, nextIndex := r'.nextIndex, matchIndex := r'.matchIndex)
      && r'.nextIndex.Keys == r.nextIndex.Keys + r.peers && r'.matchIndex.Keys == r.matchIndex.Keys + r.peers
      && (forall f :: f in r.peers ==> r'.nextIndex[f] == |r.log| + 1 && r'.matchIndex[f] == 0)
      && (forall f :: f in r.nextIndex && f !in r.peers ==> r'.nextIndex[f] == r.nextIndex[f])
      && (forall f :: f in r.matchIndex && f !in r.peers ==> r'.matchIndex[f] == r.matchIndex[f])
  {
  }

  // ------------------------------------------------------- commit and apply

  /** The commit index is c, and whatever was not applied up to there has been
      written to the table in order. */
  ghost predicate AppliedTo(r: Replica, r': Replica, c: nat) {
    && r'.commitIndex == c
    && (if r.lastApplied < c then
          && c <= |r'.log| && r'.lastApplied == c
          && Writes(r.table, r'.table, r'.log[r.lastApplied..c])
        else
          r'.lastApplied == r.lastApplied && r'.table == r.table)
  }

  lemma CommitToOutcome(r: Replica, c: nat)
    requires c <= |r.log|
    ensures AppliedTo(r, CommitTo(r, c), c)
    ensures
      var r' := CommitTo(r, c);
      r' == r.(commitIndex := c, lastApplied := r'.lastApplied, table := r'.table)
  {
    hide ApplyAll, Writes;
    if r.lastApplied < c {
      ApplyAllWrites(r.table, r.log[r.lastApplied..c]);
    }
  }

  /** Counting moves the commit index to an index of the current term that the node
      and enough of its peers hold, and applies up to it, or changes nothing. */
  lemma UpdateCommitOutcome(r: Replica)
    ensures
      var r' := UpdateCommit(r);
      && r' == r.(commitIndex := r'.commitIndex, lastApplied := r'.lastApplied, table := r'.table)
      && (r'.commitIndex == r.commitIndex ==> r' == r)
      && (r'.commitIndex != r.commitIndex ==>
            && r.commitIndex < r'.commitIndex <= |r.log|
            && r.log[r'.commitIndex - 1].term == r.term
            && 1 + |set f | f in r.matchIndex && r.matchIndex[f] >= r'.commitIndex| > |r.peers| / 2
            && AppliedTo(r, r', r'.commitIndex))
  {
    hide CommitTo, AppliedTo;
    var c := HighestCommittable(r, |r.log|);
    if c > r.commitIndex {
      CommitToOutcome(r, c);
      assert CommitTo(r, c).commitIndex == c;
    }
  }

  /** Too few replicas hold any greater index of the current term. */
  lemma UpdateCommitMissesNone(r: Replica, n: nat)
    requires UpdateCommit(r).commitIndex < n <= |r.log| && r.log[n - 1].term == r.term
    ensures 1 + |set f | f in r.matchIndex && r.matchIndex[f] >= n| <= |r.peers| / 2
  {
    hide ApplyAll;
    assert !Committable(r, n);
  }

  // ------------------------------------------------------------ replication

  /** The request describes the entry before its first one and carries the rest of
      the log. */
  ghost predicate Ships(q: AppendRequest, log: Log) {
    && |q.entries| + q.prevLogIndex == |log|
    && (forall i :: q.prevLogIndex <= i < |log| ==> q.entries[i - q.prevLogIndex] == log[i])
    && q.prevLogTerm == if q.prevLogIndex == 0 then 0 else log[q.prevLogIndex - 1].term
  }

  /** The request to a peer starts at its next index, 1 when there is none, and
      carries every entry from there to the end of the log. */
  lemma BuildAppendOutcome(r: Replica, f: NodeId)
    requires CanSend(r, f)
    ensures
      var q := BuildAppend(r, f);
      && q.prevLogIndex + 1 == (if f in r.nextIndex then r.nextIndex[f] else 1)
      && Ships(q, r.log) && q.term == r.term && q.leaderCommit == r.commitIndex && q.leaderId == f
  {
  }

  /** A request is accepted when its term is not old and the entry before its
      entries is there with the announced term. */
  predicate Acceptable(r: Replica, q: AppendRequest) {
    && q.term >= r.term
    && (q.prevLogIndex > 0 ==> q.prevLogIndex <= |r.log| && r.log[q.prevLogIndex - 1].term == q.prevLogTerm)
  }

  /** A higher term is adopted even by a node that then refuses; a refusal changes
      nothing else. A success stores the entries from the first new one on and
      commits and applies up to the announced index or the end of the log. */
  lemma AppendOutcome(r: Replica, q: AppendRequest)
    ensures
      var (r', success) := HandleAppend(r, q);
      && (success <==> Acceptable(r, q))
      && r' == r.(role := r'.role, term := r'.term, votedFor := r'.votedFor, log := r'.log,
                  commitIndex := r'.commitIndex, lastApplied := r'.lastApplied, table := r'.table)
      && (q.term > r.term ==> r'.role == Follower && r'.term == q.term && r'.votedFor == None)
      && (q.term <= r.term ==> r'.role == r.role && r'.term == r.term && r'.votedFor == r.votedFor)
      && (!success ==> SameButRole(r, r'))
      && (success ==> Stored(r, r', q))
  {
    hide CommitTo, AppliedTo, Overlap;
    if HandleAppend(r, q).1 {
      var stored := AdoptTerm(r, q.term).(log := Merge(r.log, q.prevLogIndex, q.entries));
      var c := if q.leaderCommit <= |stored.log| then q.leaderCommit else |stored.log|;
      CommitToOutcome(stored, c);
      SameApplied(r, stored, CommitTo(stored, c), c);
    }
  }

  lemma SameApplied(r: Replica, stored: Replica, r': Replica, c: nat)
    requires AppliedTo(stored, r', c) && stored.lastApplied == r.lastApplied && stored.table == r.table
    ensures AppliedTo(r, r', c)
  {
  }

  /** k incoming entries overlap with stored ones of the same term; the others
      replace whatever follows. */
  ghost predicate Stored(r: Replica, r': Replica, q: AppendRequest)
    requires q.prevLogIndex <= |r.log|
  {
    var k := Overlap(r.log, q.prevLogIndex, q.entries);
    && r'.log == (if k == |q.entries| then r.log else r.log[..q.prevLogIndex + k] + q.entries[k..])
    && (q.leaderCommit > r.commitIndex ==>
          AppliedTo(r, r', if q.leaderCommit <= |r'.log| then q.leaderCommit else |r'.log|))
    && (q.leaderCommit <= r.commitIndex ==>
          r'.commitIndex == r.commitIndex && r'.lastApplied == r.lastApplied && r'.table == r.table)
  }

  /** A success is noted for that peer alone and followed by a count; a refusal
      moves that peer's next index down by one, not below 1. */
  lemma ReplyOutcome(r: Replica, f: NodeId, success: bool)
    ensures
      var r' := HandleAppendReply(r, f, success);
      && r'.nextIndex.Keys == r.nextIndex.Keys + {f}
      && (forall g :: g in r.nextIndex && g != f ==> r'.nextIndex[g] == r.nextIndex[g])
      && (success ==>
            && r'.nextIndex[f] == |r.log| + 1
            && r'.matchIndex.Keys == r.matchIndex.Keys + {f} && r'.matchIndex[f] == |r.log|
            && (forall g :: g in r.matchIndex && g != f ==> r'.matchIndex[g] == r.matchIndex[g])
            && r' == UpdateCommit(r.(nextIndex := r'.nextIndex, matchIndex := r'.matchIndex)))
      && (!success ==>
            && r'.nextIndex[f] == (if f in r.nextIndex && r.nextIndex[f] > 2 then r.nextIndex[f] - 1 else 1)
            && r' == r.(nextIndex := r'.nextIndex))
  {
    hide UpdateCommit;
    UpdateCommitOutcome(r.(nextIndex := r.nextIndex[f := |r.log| + 1], matchIndex := r.matchIndex[f := |r.log|]));
  }

  /** A follower that has applied what it committed has after a success applied
      what it then committed, and reads what the last committed write of a key
      says. */
  lemma FollowerReads(r: Replica, q: AppendRequest)
    requires r.lastApplied == r.commitIndex <= |r.log| && Writes(map[], r.table, r.log[..r.commitIndex])
    requires HandleAppend(r, q).1 && r.log[..r.commitIndex] <= HandleAppend(r, q).0.log
    ensures
      var r' := HandleAppend(r, q).0;
      && r'.lastApplied == r'.commitIndex <= |r'.log| && Writes(map[], r'.table, r'.log[..r'.commitIndex])
      && (q.leaderCommit > r.commitIndex ==>
            r'.commitIndex == if q.leaderCommit <= |r'.log| then q.leaderCommit else |r'.log|)
  {
    hide HandleAppend, Writes, Overlap;
    AppendOutcome(r, q);
    var r' := HandleAppend(r, q).0;
    if q.leaderCommit > r.commitIndex {
      var front := r.log[..r.commitIndex];
      var c := r'.commitIndex;
      assert r'.log[..r.commitIndex] == front;
      if r.commitIndex < c {
        assert front + r'.log[r.commitIndex..c] == r'.log[..c];
        WritesTwice(map[], r.table, r'.table, front, r'.log[r.commitIndex..c]);
      }
    }
    assert r'.commitIndex == r.commitIndex ==> r'.log[..r'.commitIndex] == r.log[..r.commitIndex];
  }

  lemma WritesTwice(t0: KvTable, t1: KvTable, t2: KvTable, a: seq<LogEntry>, b: seq<LogEntry>)
    requires Writes(t0, t1, a) && Writes(t1, t2, b)
    ensures Writes(t0, t2, a + b)
  {
    hide Writes;
    WritesUnique(t0, t1, a);
    WritesUnique(t1, t2, b);
    ApplyAllConcat(t0, a, b);
    ApplyAllWrites(t0, a + b);
  }
}

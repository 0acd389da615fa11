/** RaftNode over its storage and its role/term object. Every method is proved
    to compute the function of Replicas.dfy on the node's abstract value. */
module RaftNodes {
  import opened Types
  import opened Logs
  import opened Storage
  import opened RaftStates
  import opened Replicas

  function CountGranted(votes: seq<bool>): (count: nat)
    ensures count == multiset(votes)[true]
  {
    if |votes| == 0 then 0
    else
      assert votes == [votes[0]] + votes[1..];
      (if votes[0] then 1 else 0) + CountGranted(votes[1..])
  }

  class RaftNode {
    const nodeId: NodeId
    const peers: set<NodeId>
    const storage: SQLiteStorage
    const state: RaftState
    var nextIndex: map<NodeId, nat>
    var matchIndex: map<NodeId, nat>
    var votedFor: Option<NodeId>

    ghost predicate Valid()
      reads this, storage, state
    {
      storage.Valid()
    }

    /** The node as a value. */
    ghost function Abs(): Replica
      requires Valid()
      reads this, storage, state
    {
      Replica(nodeId, peers, state.currentRole, state.currentTerm, votedFor,
              storage.Log(), storage.commitIndex, storage.lastApplied, storage.kvStore,
              nextIndex, matchIndex)
    }

    /** A node over an existing storage starts as a follower of term 0. */
    constructor (nodeId: NodeId, peerIds: set<NodeId>, storage: SQLiteStorage)
      requires storage.Valid()
      ensures Valid() && this.storage == storage && fresh(state)
      ensures this.nodeId == nodeId && peers == peerIds && votedFor == None && nextIndex == matchIndex == map[]
      ensures state.currentRole == Follower && state.currentTerm == 0
      ensures Abs() == Fresh(nodeId, peerIds).(log := storage.Log(), table := storage.kvStore,
                         commitIndex := storage.commitIndex, lastApplied := storage.lastApplied)
    {
      this.nodeId := nodeId;
      this.peers := peerIds;
      this.storage := storage;
      this.state := new RaftState();
      this.nextIndex, this.matchIndex := map[], map[];
      this.votedFor := None;
    }

    // -------------------------------------------------------------- elections

    /** Up to the point where the vote requests go out. */
    method StartElection() returns (ballot: VoteRequest)
      requires Valid()
      modifies this, state
      ensures Valid() && Abs() == Replicas.StartElection(old(Abs()))
      ensures ballot == BallotOf(Abs())
    {
      state.BecomeCandidate();
      votedFor := Some(nodeId);
      var lastLogIndex := storage.GetLastLogIndex();
      var lastLogTerm := storage.GetLastLogTerm();
      ballot := VoteRequest(state.currentTerm, nodeId, lastLogIndex, lastLogTerm);
    }

    /** The caller's side of one RequestVote exchange once the reply is in. */
    method OnVoteReply(reply: VoteReply) returns (granted: bool)
      requires Valid()
      modifies this, state
      ensures Valid() && (Abs(), granted) == HandleVoteReply(old(Abs()), reply)
    {
      if reply.term > state.currentTerm {
        state.SetCurrentTerm(reply.term);
        state.BecomeFollower(reply.term);
        votedFor := None;
        return false;
      }
      return reply.voteGranted;
    }

    /** All replies are in: count them and the self-vote. The role and the term
        are not looked at again. */
    method FinishElection(votes: seq<bool>)
      requires Valid()
      modifies this, state
      ensures Valid()
      ensures Abs() == if IsQuorumCount(peers, CountGranted(votes) + 1)
                       then Replicas.BecomeLeader(old(Abs())) else old(Abs())
    {
      var voteCount := CountGranted(votes) + 1;
      if voteCount > |peers| / 2 {
        BecomeLeader();
      }
    }

    method BecomeLeader()
      requires Valid()
      modifies this, state
      ensures Valid() && Abs() == Replicas.BecomeLeader(old(Abs()))
    {
      hide SetAll;
      state.BecomeLeader();
      SetAllNone(nextIndex, |storage.Log()| + 1);
      SetAllNone(matchIndex, 0);
      assert peers - peers == {};
      var lastLogIndex := storage.GetLastLogIndex();
      var rest := peers;
      while rest != {}
        invariant rest <= peers
        invariant nextIndex == SetAll(old(nextIndex), peers - rest, lastLogIndex + 1)
        invariant matchIndex == SetAll(old(matchIndex), peers - rest, 0)
        modifies this`nextIndex, this`matchIndex
        decreases rest
      {
        var peer :| peer in rest;
        SetAllAdd(old(nextIndex), peers - rest, peer, lastLogIndex + 1);
        SetAllAdd(old(matchIndex), peers - rest, peer, 0);
        assert peers - (rest - {peer}) == peers - rest + {peer};
        nextIndex := nextIndex[peer := lastLogIndex + 1];
        matchIndex := matchIndex[peer := 0];
        rest := rest - {peer};
      }
      assert peers - rest == peers;
    }

    // ------------------------------------------------------- commit and apply

    method ApplyCommittedEntries()
      requires Valid() && storage.commitIndex <= |storage.Log()|
      modifies storage`kvStore, storage`lastApplied
      ensures Valid() && Abs() == ApplyCommitted(old(Abs()))
    {
      ghost var log := storage.Log();
      ghost var first := storage.lastApplied;
      var lastApplied := storage.lastApplied;
      var commitIndex := storage.commitIndex;
      while lastApplied < commitIndex
        invariant first <= lastApplied && (lastApplied <= commitIndex || lastApplied == first)
        invariant storage.lastApplied == first
        invariant lastApplied <= |log| || lastApplied == first
        invariant storage.kvStore ==
          if lastApplied <= |log| then ApplyAll(old(storage.kvStore), log[first..lastApplied])
          else old(storage.kvStore)
        modifies storage`kvStore
      {
        lastApplied := lastApplied + 1;
        var entry := storage.GetLogEntry(lastApplied);
        assert log[first..lastApplied][..lastApplied - 1 - first] == log[first..lastApplied - 1];
        storage.UpdateKeyValue(entry.value.key, entry.value.value);
      }
      storage.SetLastApplied(lastApplied);
    }

    /** How many replicas hold index n, by the acknowledgements. */
    method CountReplicas(n: nat) returns (replicationCount: nat)
      ensures replicationCount == ReplicationCount(matchIndex, n)
    {
      replicationCount := 1;
      var rest := matchIndex.Keys;
      while rest != {}
        invariant rest <= matchIndex.Keys
        invariant replicationCount == 1 + |set f | f in matchIndex.Keys - rest && matchIndex[f] >= n|
        decreases rest
      {
        var f :| f in rest;
        ghost var counted := set g | g in matchIndex.Keys - rest && matchIndex[g] >= n;
        ghost var next := set g | g in matchIndex.Keys - (rest - {f}) && matchIndex[g] >= n;
        if matchIndex[f] >= n {
          replicationCount := replicationCount + 1;
          assert next == counted + {f};
        } else {
          assert next == counted;
        }
        rest := rest - {f};
      }
      assert (set f | f in matchIndex.Keys - rest && matchIndex[f] >= n) ==
             (set f | f in matchIndex && matchIndex[f] >= n);
    }

    method UpdateCommitIndex()
      requires Valid()
      modifies storage`commitIndex, storage`kvStore, storage`lastApplied
      ensures Valid() && Abs() == UpdateCommit(old(Abs()))
    {
      ghost var before := Abs();
      var lastLogIndex := storage.GetLastLogIndex();
      var n := storage.commitIndex + 1;
      while n <= lastLogIndex
        invariant before.commitIndex < n
        invariant n <= lastLogIndex + 1 || n == before.commitIndex + 1
        invariant Abs() == if n <= lastLogIndex + 1 then CommitUpTo(before, n - 1) else before
        modifies storage`commitIndex, storage`kvStore, storage`lastApplied
      {
        var entry := storage.GetLogEntry(n);
        if entry.value.term == state.currentTerm {
          var replicationCount := CountReplicas(n);
          if replicationCount > |peers| / 2 {
            CommitToTwice(before, HighestCommittable(before, n - 1), n);
            storage.SetCommitIndex(n);
            ApplyCommittedEntries();
          }
        }
        n := n + 1;
      }
    }

    // ------------------------------------------------------------ replication

    method AppendEntries(leaderId: NodeId, term: nat, prevLogIndex: nat, prevLogTerm: nat,
                         entries: seq<LogEntry>, leaderCommit: nat)
      returns (success: bool)
      requires Valid()
      modifies this, state, storage
      ensures Valid()
      ensures (Abs(), success) ==
              HandleAppend(old(Abs()),
                           AppendRequest(term, leaderId, prevLogIndex, prevLogTerm, entries, leaderCommit))
    {
      hide Merge, ApplyAll;
      if term < state.currentTerm {
        return false;
      }
      if term > state.currentTerm {
        state.SetCurrentTerm(term);
        state.BecomeFollower(term);
        votedFor := None;
      }
      var last := storage.GetLastLogIndex();
      if last < prevLogIndex {
        return false;
      }
      if prevLogIndex > 0 {
        var prev := storage.GetLogEntry(prevLogIndex);
        if prev.value.term != prevLogTerm {
          return false;
        }
      }
      MergeEntries(prevLogIndex, entries);
      if leaderCommit > storage.commitIndex {
        last := storage.GetLastLogIndex();
        storage.SetCommitIndex(if leaderCommit <= last then leaderCommit else last);
        ApplyCommittedEntries();
      }
      return true;
    }

    /** The loop of AppendEntries that skips, truncates and appends in place. */
    method MergeEntries(prevLogIndex: nat, entries: seq<LogEntry>)
      requires Valid() && prevLogIndex <= |storage.Log()|
      modifies storage`logs
      ensures Valid() && storage.Log() == Merge(old(storage.Log()), prevLogIndex, entries)
    {
      hide Merge;
      ghost var log := storage.Log();
      MergeNothing(log, prevLogIndex, entries);
      assert entries[..|entries|] == entries;
      for i := 0 to |entries|
        invariant Valid()
        invariant storage.Log() == Merge(log, prevLogIndex, entries[..i])
        modifies storage`logs
      {
        MergeStep(log, prevLogIndex, entries, i);
        var index := prevLogIndex + 1 + i;
        var last := storage.GetLastLogIndex();
        if last >= index {
          var stored := storage.GetLogEntry(index);
          if stored.value.term != entries[i].term {
            storage.DeleteLogEntriesFrom(index);
          } else {
            continue;
          }
        }
        var at := storage.AppendLogEntry(entries[i]);
        assert at == index;
      }
    }

    method BuildAppendRequest(follower: NodeId) returns (q: AppendRequest)
      requires Valid() && CanSend(Abs(), follower)
      ensures q == BuildAppend(Abs(), follower)
    {
      hide Slice;
      var nextIdx := if follower in nextIndex then nextIndex[follower] else 1;
      var last := storage.GetLastLogIndex();
      TailSlice(storage.Log(), nextIdx);
      var entries := storage.GetLogEntries(nextIdx, last);
      var prevLogIndex := nextIdx - 1;
      var prevLogTerm := 0;
      if prevLogIndex > 0 {
        var prev := storage.GetLogEntry(prevLogIndex);
        prevLogTerm := prev.value.term;
      }
      q := AppendRequest(state.currentTerm, follower, prevLogIndex, prevLogTerm, entries, storage.commitIndex);
    }

    method OnAppendReply(follower: NodeId, success: bool)
      requires Valid()
      modifies this, storage
      ensures Valid() && Abs() == HandleAppendReply(old(Abs()), follower, success)
    {
      if success {
        var last := storage.GetLastLogIndex();
        nextIndex := nextIndex[follower := last + 1];
        last := storage.GetLastLogIndex();
        matchIndex := matchIndex[follower := last];
        UpdateCommitIndex();
      } else {
        var next: int := if follower in nextIndex then nextIndex[follower] else 1;
        nextIndex := nextIndex[follower := if next - 1 > 1 then next - 1 else 1];
      }
    }

    /** As written, the request goes to the node's own AppendEntries. */
    method SendAppendEntries(follower: NodeId)
      requires Valid() && CanSend(Abs(), follower)
      modifies this, state, storage
      ensures Valid() && Abs() == HandleAppendReply(old(Abs()), follower, true)
    {
      var q := BuildAppendRequest(follower);
      SelfSendChangesNothing(Abs(), follower);
      var success := AppendEntries(q.leaderId, q.term, q.prevLogIndex, q.prevLogTerm, q.entries, q.leaderCommit);
      OnAppendReply(follower, success);
    }

    /** With the self-call, everything in the log is committed and applied on
        return, whatever the number of peers. */
    method ReplicateEntry() returns (done: bool)
      requires Valid() && Ordered(Abs())
      requires forall f :: f in peers ==> CanSend(Abs(), f)
      requires Abs().commitIndex < |Abs().log| && LastTerm(Abs().log) == Abs().term
      modifies this, state, storage
      ensures Valid() && done
      ensures Abs() == AllReplicated(old(Abs()))
    {
      hide Acknowledged, SetAll, CommitTo, UpdateCommit, HandleAppendReply;
      ghost var before := Abs();
      NobodyAcknowledged(before);
      var rest := peers;
      while rest != {}
        invariant Valid() && rest <= peers
        invariant Acknowledged(before, Abs(), rest)
        decreases rest
      {
        var peer :| peer in rest;
        ReplyAcknowledges(before, Abs(), rest, peer);
        SendAppendEntries(peer);
        rest := rest - {peer};
      }
      AllAcknowledged(before, Abs());
      UpdateCommitIndex();
      done := true;
    }

    method ProposeEntry(key: string, value: string) returns (accepted: bool)
      requires Valid() && Ordered(Abs())
      requires Abs().role == Leader ==> forall f :: f in peers ==> CanSend(Abs(), f)
      modifies this, state, storage
      ensures Valid() && accepted == (old(Abs()).role == Leader)
      ensures !accepted ==> Abs() == old(Abs())
      ensures accepted ==> Proposed(old(Abs()), Abs(), LogEntry(old(Abs()).term, key, value))
    {
      hide AllReplicated, Proposed;
      ProposeOutcome(Abs(), key, value);
      if state.currentRole != Leader {
        return false;
      }
      var index := storage.AppendLogEntry(LogEntry(state.currentTerm, key, value));
      assert Abs() == AppendOwn(old(Abs()), key, value);
      accepted := ReplicateEntry();
    }

    /** Put-then-get: a proposal accepted by the leader is readable on return, and
        every other key reads as the entries applied with it say. */
    method PutThenGet(key: string, value: string) returns (read: Option<string>)
      requires Valid() && Ordered(Abs())
      requires Abs().role == Leader && forall f :: f in peers ==> CanSend(Abs(), f)
      modifies this, state, storage
      ensures read == Some(value)
      ensures Valid() && Proposed(old(Abs()), Abs(), LogEntry(old(Abs()).term, key, value))
    {
      hide Writes;
      var accepted := ProposeEntry(key, value);
      read := storage.Get(key);
    }
  }

  /** The entry is at the end of the log, all of the log is committed and applied,
      and every peer counts as holding it; nothing else has changed. */
  ghost predicate Proposed(r: Replica, r': Replica, e: LogEntry) {
    && r' == r.(log := r.log + [e], commitIndex := |r.log| + 1, lastApplied := |r.log| + 1, table := r'.table,
                nextIndex := r'.nextIndex, matchIndex := r'.matchIndex)
    && r.lastApplied <= |r.log| && Writes(r.table, r'.table, (r.log + [e])[r.lastApplied..])
    && e.key in r'.table && r'.table[e.key] == e.value
    && r'.nextIndex.Keys == r.nextIndex.Keys + r.peers && r'.matchIndex.Keys == r.matchIndex.Keys + r.peers
    && (forall f :: f in r.peers ==> r'.nextIndex[f] == |r.log| + 2 && r'.matchIndex[f] == |r.log| + 1)
    && (forall f :: f in r.nextIndex && f !in r.peers ==> r'.nextIndex[f] == r.nextIndex[f])
    && (forall f :: f in r.matchIndex && f !in r.peers ==> r'.matchIndex[f] == r.matchIndex[f])
  }

  lemma ProposeOutcome(r: Replica, key: string, value: string)
    requires Ordered(r)
    ensures Proposed(r, AllReplicated(AppendOwn(r, key, value)), LogEntry(r.term, key, value))
  {
    hide ApplyAll, Writes;
    var e := LogEntry(r.term, key, value);
    var applied := (r.log + [e])[r.lastApplied..];
    assert applied == (r.log + [e])[r.lastApplied..|r.log| + 1];
    ApplyAllWrites(r.table, applied);
    assert LastWrite(applied, key, |applied| - 1);
    WrittenLast(r.table, ApplyAll(r.table, applied), applied, key);
  }

  lemma WrittenLast(before: KvTable, after: KvTable, entries: seq<LogEntry>, key: string)
    requires Writes(before, after, entries) && LastWrite(entries, key, |entries| - 1)
    ensures key in after && after[key] == entries[|entries| - 1].value
  {
    assert WritesKey(before, after, entries, key);
  }

  /** `r` is `before` with possibly more committed and other bookkeeping for
      the peers. */
  ghost predicate AdvancedFrom(before: Replica, r: Replica) {
    && before.commitIndex <= r.commitIndex <= |before.log|
    && r == Advance(before, r.commitIndex).(nextIndex := r.nextIndex, matchIndex := r.matchIndex)
  }

  /** Another round of committing only moves the commit index further. */
  lemma CommitAdvances(before: Replica, r: Replica)
    requires Ordered(before) && AdvancedFrom(before, r)
    ensures AdvancedFrom(before, UpdateCommit(r))
    ensures UpdateCommit(r).nextIndex == r.nextIndex && UpdateCommit(r).matchIndex == r.matchIndex
  {
    CommitToTwice(before, r.commitIndex, HighestCommittable(r, |r.log|));
  }

  /** Partway through the loop over the peers: those not in `rest` have
      acknowledged the whole log. */
  ghost predicate Acknowledged(before: Replica, r: Replica, rest: set<NodeId>) {
    && AdvancedFrom(before, r)
    && (forall f :: f in r.peers ==> CanSend(r, f))
    && r.nextIndex == SetAll(before.nextIndex, before.peers - rest, |before.log| + 1)
    && r.matchIndex == SetAll(before.matchIndex, before.peers - rest, |before.log|)
  }

  lemma NobodyAcknowledged(r: Replica)
    requires r.commitIndex <= |r.log| && forall f :: f in r.peers ==> CanSend(r, f)
    ensures Acknowledged(r, r, r.peers)
  {
    assert r.peers - r.peers == {};
    SetAllNone(r.nextIndex, |r.log| + 1);
    SetAllNone(r.matchIndex, |r.log|);
  }

  lemma ReplyAcknowledges(before: Replica, r: Replica, rest: set<NodeId>, peer: NodeId)
    requires Ordered(before) && Acknowledged(before, r, rest)
    requires peer in rest && rest <= before.peers
    ensures CanSend(r, peer)
    ensures Acknowledged(before, HandleAppendReply(r, peer, true), rest - {peer})
  {
    hide UpdateCommit, Advance, SetAll;
    SetAllAdd(before.nextIndex, before.peers - rest, peer, |before.log| + 1);
    SetAllAdd(before.matchIndex, before.peers - rest, peer, |before.log|);
    assert before.peers - (rest - {peer}) == before.peers - rest + {peer};
    var told := r.(nextIndex := r.nextIndex[peer := |before.log| + 1],
                   matchIndex := r.matchIndex[peer := |before.log|]);
    CommitAdvances(before, told);
    AdvancedCore(before, r);
    AdvancedCore(before, UpdateCommit(told));
    var after := UpdateCommit(told);
    assert after == HandleAppendReply(r, peer, true);
    forall f | f in r.peers ensures CanSend(after, f) {
      assert CanSend(r, f);
    }
  }

  lemma AdvancedCore(before: Replica, r: Replica)
    requires AdvancedFrom(before, r)
    ensures r.log == before.log && r.peers == before.peers
  {
    hide ApplyAll;
  }

  /** Everything in the log is committed and applied, and every peer counts as
      holding all of it. */
  function AllReplicated(r: Replica): Replica {
    CommitTo(r, |r.log|).(nextIndex := SetAll(r.nextIndex, r.peers, |r.log| + 1),
                          matchIndex := SetAll(r.matchIndex, r.peers, |r.log|))
  }

  /** When every peer has acknowledged the whole log and it ends in the current
      term, all of it is committed. */
  lemma AllAcknowledged(before: Replica, r: Replica)
    requires Ordered(before) && before.commitIndex < |before.log| && LastTerm(before.log) == before.term
    requires Acknowledged(before, r, {})
    ensures UpdateCommit(r) == AllReplicated(before)
  {
    hide ApplyAll, CanSend, SetAll;
    CommitAdvances(before, r);
    assert before.peers - {} == before.peers;
    var c := HighestCommittable(r, |r.log|);
    if r.commitIndex < |r.log| {
      HeldByAll(before, r);
    }
  }

  lemma HeldByAll(before: Replica, r: Replica)
    requires r.matchIndex == SetAll(before.matchIndex, r.peers, |r.log|) && r.commitIndex < |r.log|
    requires LastTerm(r.log) == r.term
    ensures Committable(r, |r.log|)
  {
    var holders := set f | f in r.matchIndex && r.matchIndex[f] >= |r.log|;
    SubsetCardinality(r.peers, holders);
  }
}

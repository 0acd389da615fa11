/** Every action keeps the safety part of the invariant when the voters compare
    logs. */
module SafeSteps {
  import opened Types
  import opened Logs
  import opened Replicas
  import opened Quorums
  import opened Clusters
  import opened BaseInvariant
  import opened BaseSteps
  import opened SafeInvariant

  lemma InitSafe(ids: set<NodeId>)
    ensures Safe(Init(ids))
  {
  }

  // ----------------------------------------------------- single facts, taken out

  lemma CommitAt(s: Cluster, n: NodeId)
    requires CommitsOk(s) && n in s.members
    ensures CommitOk(s, Rep(s, n)) && Ordered(Rep(s, n))
  {
  }

  lemma CommitCarried(s: Cluster, s': Cluster, n: NodeId)
    requires CommitsOk(s) && StepOf(s, s', n)
    requires Rep(s, n).log <= Rep(s', n).log && Rep(s', n).commitIndex == Rep(s, n).commitIndex
    requires Rep(s', n).lastApplied == Rep(s, n).lastApplied && Rep(s', n).table == Rep(s, n).table
    ensures CommitOk(s', Rep(s', n))
  {
    hide CommitsOk, CommitOk, ReignsGrow, Grows;
    CommitAt(s, n);
    StepGrows(s, s', n);
    CommitOkKept(s, s', Rep(s, n), Rep(s', n));
  }

  lemma AnnouncedAt(s: Cluster, q: AppendRequest)
    requires NetCommitsOk(s) && q in s.net
    ensures q.term in s.reigns && AnnouncedOk(s, q)
  {
  }

  // ------------------------------------------------- steps that leave logs alone

  /** The node's log, what it has accepted and what it has committed stay. */
  ghost predicate LeavesLog(s: Cluster, s': Cluster, n: NodeId) {
    && n in s.members && n in s'.members
    && Rep(s', n).log == Rep(s, n).log && s'.members[n].acked == s.members[n].acked
    && Rep(s', n).commitIndex == Rep(s, n).commitIndex
    && Rep(s', n).lastApplied == Rep(s, n).lastApplied && Rep(s', n).table == Rep(s, n).table
    && s'.net == s.net && s'.reigns == s.reigns
  }

  lemma SameHold(s: Cluster, s': Cluster, n: NodeId)
    requires NodesHold(s) && n in s.members && n in s'.members
    requires Rep(s', n).log == Rep(s, n).log && s'.members[n].acked == s.members[n].acked
    ensures HoldStep(s, s', n)
  {
    hide NodesHold, Locked;
    forall t: nat, i: nat | Locked(s, t, i) && i <= Ack(s', n, t) ensures Holds(s, t, i, Rep(s', n).log) {
      HoldsFor(s, t, i, n);
    }
  }

  lemma LogUntouched(s: Cluster, s': Cluster, n: NodeId)
    requires VotesOk(s) && VotesOk(s') && Safe(s)
    requires ElectoralStep(s, s', n) && LeavesLog(s, s', n) && VoteStep(s, s', n)
    ensures Safe(s')
  {
    hide VotesOk, ReignsHold, NodesHold, VotersHold, CommitsOk, NetCommitsOk;
    hide VotesStep, RoundStep, LeaderStep, ReignStep, BallotStep, VoteStep, HoldStep, CommitOk, ReignsGrow;
    SameHold(s, s', n);
    StepGrows(s, s', n);
    CommitCarried(s, s', n);
    SafeKeptSameReigns(s, s', n);
  }

  lemma ElectVote(s: Cluster, n: NodeId)
    requires NodesHold(s) && n in s.members
    ensures VoteStep(s, ElectStep(s, n), n)
  {
    hide NodesHold, Locked;
    var s' := ElectStep(s, n);
    forall t: nat, i: nat, c |
      && Locked(s, t, i) && c in s'.members && Backs(s', n, c) && !VotedFor(s, n, Rep(s', c).term, c)
      && t < Rep(s', c).term && i <= Ack(s', n, t)
      ensures Holds(s, t, i, Rep(s', c).log)
    {
      HoldsFor(s, t, i, n);
    }
  }

  lemma ElectSafe(s: Cluster, n: NodeId)
    requires Base(s) && Safe(s) && n in s.members
    ensures Safe(ElectStep(s, n))
  {
    hide VotesOk, CandidatesOk, LeadersOk, ReignsOk, BallotsOk, Replicated, Bookkept, ElectoralStep, VoteStep;
    hide ReignsHold, NodesHold, VotersHold, CommitsOk, NetCommitsOk;
    ElectBase(s, n);
    ElectElectoral(s, n);
    ElectVote(s, n);
    LogUntouched(s, ElectStep(s, n), n);
  }

  /** A log that is at least as up to date as one that has a locked prefix has
      the prefix too. */
  lemma UpToDateHolds(s: Cluster, t: nat, i: nat, voter: Log, candidate: Log)
    requires LogsOk(s) && ReignsHold(s) && Locked(s, t, i)
    requires Canon(s.reigns, voter) && Canon(s.reigns, candidate)
    requires Holds(s, t, i, voter)
    requires LastTerm(candidate) > LastTerm(voter)
          || (LastTerm(candidate) == LastTerm(voter) && |candidate| >= |voter|)
    ensures Holds(s, t, i, candidate)
  {
    var tv, tc := LastTerm(voter), LastTerm(candidate);
    LastReign(s, voter);
    assert voter[i - 1].term == t <= tv;
    LastReign(s, candidate);
    if tc > t {
      ReignHolds(s, t, i, tc);
      ReignLogAt(s, t);
      assert forall j :: 0 <= j < |candidate| && j < i ==> candidate[j] == s.reigns[t].log[j];
    }
  }

  /** A log lies within the log of the leader of its last term, whose terms go no
      higher. */
  lemma LastReign(s: Cluster, log: Log)
    requires LogsOk(s) && Canon(s.reigns, log) && log != []
    ensures LastTerm(log) in s.reigns && log <= s.reigns[LastTerm(log)].log
    ensures forall j :: 0 <= j < |log| ==> log[j].term <= LastTerm(log)
  {
    assert CanonAt(s.reigns, log, |log| - 1);
    assert log[..|log|] == log;
    ReignLogAt(s, LastTerm(log));
    assert forall j :: 0 <= j < |log| ==> log[j] == s.reigns[LastTerm(log)].log[j];
  }

  lemma VoterVote(s: Cluster, ballot: VoteRequest, v: NodeId, reply: VoteReply)
    requires LogsOk(s) && BallotsOk(s) && ReignsHold(s) && NodesHold(s)
    requires ballot in s.ballots && v in s.members && v != ballot.candidateId
    requires VoterContract(s.members[v], ballot, reply, true)
    ensures VoteStep(s, VoterStep(s, ballot, v, reply), v)
  {
    hide LogsOk, BallotsOk, ReignsHold, NodesHold, Locked, Holds;
    var s' := VoterStep(s, ballot, v, reply);
    BallotAt(s, ballot);
    forall t: nat, i: nat, c |
      && Locked(s, t, i) && c in s'.members && Backs(s', v, c) && !VotedFor(s, v, Rep(s', c).term, c)
      && t < Rep(s', c).term && i <= Ack(s', v, t)
      ensures Holds(s, t, i, Rep(s', c).log)
    {
      assert c == ballot.candidateId && Rep(s', c) == Rep(s, c) && reply.voteGranted;
      HoldsFor(s, t, i, v);
      LogAt(s, v);
      LogAt(s, c);
      UpToDateHolds(s, t, i, Rep(s, v).log, Rep(s, c).log);
    }
  }

  lemma VoterSafe(s: Cluster, ballot: VoteRequest, v: NodeId, reply: VoteReply)
    requires Base(s) && Safe(s) && ballot in s.ballots && v in s.members && v != ballot.candidateId
    requires VoterContract(s.members[v], ballot, reply, true)
    ensures Safe(VoterStep(s, ballot, v, reply))
  {
    hide VotesOk, CandidatesOk, LeadersOk, ReignsOk, BallotsOk, LogsOk, NetOk, AcksOk, Bookkept, ElectoralStep, VoteStep;
    hide ReignsHold, NodesHold, VotersHold, CommitsOk, NetCommitsOk;
    VoterBase(s, ballot, v, reply);
    VoterElectoral(s, ballot, v, reply);
    VoterVote(s, ballot, v, reply);
    LogUntouched(s, VoterStep(s, ballot, v, reply), v);
  }

  lemma NoNewVote(s: Cluster, s': Cluster, n: NodeId)
    requires n in s.members && n in s'.members && s'.members[n].voted == s.members[n].voted
    ensures VoteStep(s, s', n)
  {
  }

  lemma CandidateSafe(s: Cluster, ballot: VoteRequest, v: NodeId, reply: VoteReply)
    requires Base(s) && Safe(s) && ballot.candidateId in s.members && v != ballot.candidateId
    requires reply.voteGranted ==> VotedFor(s, v, ballot.term, ballot.candidateId)
    ensures Safe(CandidateStep(s, ballot, v, reply))
  {
    hide VotesOk, CandidatesOk, LeadersOk, ReignsOk, BallotsOk, Replicated, Bookkept, ElectoralStep, VoteStep;
    hide ReignsHold, NodesHold, VotersHold, CommitsOk, NetCommitsOk;
    CandidateBase(s, ballot, v, reply);
    CandidateElectoral(s, ballot, v, reply);
    NoNewVote(s, CandidateStep(s, ballot, v, reply), ballot.candidateId);
    LogUntouched(s, CandidateStep(s, ballot, v, reply), ballot.candidateId);
  }

  // ------------------------------------------------------------------ winning

  /** The winner's log has every locked prefix: its voters share a node with
      those who may have accepted it. */
  lemma WinnerHolds(s: Cluster, n: NodeId, t: nat, i: nat)
    requires Shape(s) && VotesOk(s) && VotersHold(s) && n in s.members
    requires Rep(s, n).role == Candidate && Rep(s, n).term !in s.reigns
    requires Majority(s.members.Keys, Voters(s, Rep(s, n).term, n))
    requires Locked(s, t, i) && t < Rep(s, n).term
    ensures Holds(s, t, i, Rep(s, n).log)
  {
    hide VotesOk, VotersHold;
    var v := MajoritiesMeet(s.members.Keys, Voters(s, Rep(s, n).term, n), Choosers(s, t, i));
    VoteBelow(s, v, Rep(s, n).term, n);
    VotersHoldFor(s, t, i, v, n);
  }

  /** No entry has the term of the new leader yet, so no lock is new. */
  lemma WinLocksOld(s: Cluster, n: NodeId)
    requires LogsOk(s) && n in s.members && Rep(s, n).term !in s.reigns && Grows(s, WinStep(s, n))
    ensures LocksOld(s, WinStep(s, n))
    ensures forall t: nat, i: nat :: Locked(WinStep(s, n), t, i) ==> LockOld(s, WinStep(s, n), t, i)
  {
    hide LogsOk, Grows;
    var s' := WinStep(s, n);
    LogAt(s, n);
    forall i: nat ensures !Locked(s', Rep(s, n).term, i) {
      assert 1 <= i <= |Rep(s, n).log| ==> CanonAt(s.reigns, Rep(s, n).log, i - 1);
    }
    forall t: nat, i: nat | Locked(s', t, i) ensures LockOld(s, s', t, i) {
      LockedBefore(s, s', t, i);
    }
  }

  lemma WinReignsHold(s: Cluster, n: NodeId)
    requires Shape(s) && VotesOk(s) && LogsOk(s) && VotersHold(s) && ReignsHold(s)
    requires n in s.members && Rep(s, n).role == Candidate && Rep(s, n).term !in s.reigns
    requires Majority(s.members.Keys, Voters(s, Rep(s, n).term, n))
    requires StepOf(s, WinStep(s, n), n)
    ensures ReignsHold(WinStep(s, n)) && LocksOld(s, WinStep(s, n))
  {
    hide Shape, VotesOk, LogsOk, VotersHold, ReignsHold, Locked, Voters, Majority;
    var s' := WinStep(s, n);
    StepGrows(s, s', n);
    WinLocksOld(s, n);
    forall t: nat, i: nat, u | Locked(s', t, i) && u in s'.reigns && u !in s.reigns && t < u
      ensures Holds(s', t, i, s'.reigns[u].log)
    {
      assert LockOld(s, s', t, i);
      WinnerHolds(s, n, t, i);
    }
    ReignsHoldKept(s, s');
  }

  lemma WinHold(s: Cluster, n: NodeId)
    requires NodesHold(s) && n in s.members && Rep(s, n).term !in s.reigns
    ensures HoldStep(s, WinStep(s, n), n)
  {
    hide NodesHold;
    var s' := WinStep(s, n);
    forall t: nat, i: nat | Locked(s, t, i) && i <= Ack(s', n, t) ensures Holds(s, t, i, Rep(s', n).log) {
      HoldsFor(s, t, i, n);
    }
  }

  lemma WinSafe(s: Cluster, n: NodeId)
    requires Base(s) && Safe(s) && Enabled(s, Win(n), true)
    ensures Safe(WinStep(s, n))
  {
    hide Shape, VotesOk, CandidatesOk, LeadersOk, ReignsOk, BallotsOk, LogsOk, NetOk, AcksOk, Bookkept;
    hide ReignsHold, NodesHold, VotersHold, CommitsOk, NetCommitsOk, CommitOk, Majority, Voters, LocksOld;
    hide VotesStep, RoundStep, LeaderStep, ReignStep, BallotStep, HoldStep, VoteStep, MemberGrows, ReignsGrow;
    var s' := WinStep(s, n);
    WinnerIsFirst(s, n);
    WinBase(s, n);
    WinElectoral(s, n);
    WinReignsHold(s, n);
    WinHold(s, n);
    NoNewVote(s, s', n);
    StepGrows(s, s', n);
    CommitCarried(s, s', n);
    SafeKept(s, s', n);
  }

  // ---------------------------------------------------------------- proposing

  /** A leader that can still lock a new entry is the latest leader. */
  lemma ProposeNewLock(s: Cluster, n: NodeId, key: string, value: string, i: nat)
    requires Base(s) && n in s.members && Rep(s, n).role == Leader
    requires Locked(ProposeStep(s, n, key, value), Rep(s, n).term, i) && i > |Rep(s, n).log|
    requires Base(ProposeStep(s, n, key, value))
    ensures NewLock(ProposeStep(s, n, key, value), Rep(s, n).term, i)
  {
    hide VotesOk, CandidatesOk, LeadersOk, ReignsOk, BallotsOk, LogsOk, NetOk, AcksOk, Bookkept, Choosers, Majority;
    var s' := ProposeStep(s, n, key, value);
    var t := Rep(s, n).term;
    LeaderAt(s, n);
    ProposeAcks(s, n, key, value);
    forall u | u in s'.reigns ensures u <= t {
      LeadersMoveChoosersOn(s', t, i, u);
    }
  }

  /** Nobody else has accepted the new entry. */
  lemma ProposeAcks(s: Cluster, n: NodeId, key: string, value: string)
    requires LeadersOk(s) && ReignsOk(s) && AcksOk(s) && n in s.members && Rep(s, n).role == Leader
    ensures forall v :: v in s.members && v != n ==> Ack(ProposeStep(s, n, key, value), v, Rep(s, n).term) <= |Rep(s, n).log|
  {
    hide LeadersOk, ReignsOk, AcksOk;
    LeaderAt(s, n);
    forall v | v in s.members && v != n
      ensures Ack(ProposeStep(s, n, key, value), v, Rep(s, n).term) <= |Rep(s, n).log| {
      AckAt(s, v, Rep(s, n).term);
    }
  }

  /** A later leader's voters have left the term behind, so one of those who
      accepted the entry has moved on. */
  lemma LeadersMoveChoosersOn(s: Cluster, t: nat, i: nat, u: nat)
    requires Shape(s) && VotesOk(s) && ReignsOk(s) && Locked(s, t, i) && u in s.reigns
    requires forall v :: v in s.members && i <= Ack(s, v, t) ==> Rep(s, v).term <= t
    ensures u <= t
  {
    hide VotesOk, ReignsOk;
    ReignAt(s, u);
    var v := MajoritiesMeet(s.members.Keys, Voters(s, u, s.reigns[u].leader), Choosers(s, t, i));
    VoteBelow(s, v, u, s.reigns[u].leader);
  }

  lemma ReignAt(s: Cluster, u: nat)
    requires ReignsOk(s) && u in s.reigns
    ensures ReignOk(s, u, s.reigns[u].leader)
  {
  }

  lemma ProposeLocksOld(s: Cluster, n: NodeId, key: string, value: string)
    requires Base(s) && n in s.members && Rep(s, n).role == Leader
    requires Base(ProposeStep(s, n, key, value))
    ensures LocksOld(s, ProposeStep(s, n, key, value))
  {
    hide VotesOk, CandidatesOk, BallotsOk, Bookkept, ElectoralStep, LeadersOk, ReignsOk, LogsOk, NetOk, AcksOk, NewLock, LockOld;
    var s' := ProposeStep(s, n, key, value);
    ProposeStepOf(s, n, key, value);
    LeaderAt(s, n);
    forall t: nat, i: nat | Locked(s', t, i) ensures LockOld(s, s', t, i) || NewLock(s', t, i) {
      if t == Rep(s, n).term && i > |Rep(s, n).log| {
        ProposeNewLock(s, n, key, value, i);
      } else {
        LockedOld(s, s', t, i);
      }
    }
  }

  lemma LockedOld(s: Cluster, s': Cluster, t: nat, i: nat)
    requires Grows(s, s') && Locked(s', t, i)
    requires t in s.reigns && i <= |s.reigns[t].log|
    ensures LockOld(s, s', t, i)
  {
    hide Grows;
    LockedBefore(s, s', t, i);
  }

  lemma ProposeStepOf(s: Cluster, n: NodeId, key: string, value: string)
    requires LeadersOk(s) && ReignsOk(s) && AcksOk(s) && n in s.members && Rep(s, n).role == Leader
    ensures Grows(s, ProposeStep(s, n, key, value)) && StepOf(s, ProposeStep(s, n, key, value), n)
  {
    hide LeadersOk, ReignsOk, AcksOk, Grows, ProposeStep;
    ProposeElectoral(s, n, key, value);
    StepGrows(s, ProposeStep(s, n, key, value), n);
  }

  lemma ProposeHold(s: Cluster, n: NodeId, key: string, value: string)
    requires LeadersOk(s) && ReignsOk(s) && NodesHold(s) && n in s.members && Rep(s, n).role == Leader
    ensures HoldStep(s, ProposeStep(s, n, key, value), n)
  {
    hide NodesHold, LeadersOk, ReignsOk;
    var s' := ProposeStep(s, n, key, value);
    LeaderAt(s, n);
    forall t: nat, i: nat | Locked(s, t, i) && i <= Ack(s', n, t) ensures Holds(s, t, i, Rep(s', n).log) {
      if t != Rep(s, n).term {
        HoldsFor(s, t, i, n);
      }
    }
  }

  lemma ProposeSafe(s: Cluster, n: NodeId, key: string, value: string)
    requires Base(s) && Safe(s) && n in s.members && Rep(s, n).role == Leader
    ensures Safe(ProposeStep(s, n, key, value))
  {
    hide VotesOk, CandidatesOk, LeadersOk, ReignsOk, BallotsOk, LogsOk, NetOk, AcksOk, Bookkept, Shape;
    hide ReignsHold, NodesHold, VotersHold, CommitsOk, NetCommitsOk, CommitOk, LocksOld;
    hide VotesStep, RoundStep, LeaderStep, ReignStep, BallotStep, HoldStep, VoteStep, MemberGrows, ReignsGrow;
    var s' := ProposeStep(s, n, key, value);
    ProposeBase(s, n, key, value);
    ProposeElectoral(s, n, key, value);
    LeaderAt(s, n);
    ProposeLocksOld(s, n, key, value);
    ReignsHoldKept(s, s');
    ProposeHold(s, n, key, value);
    NoNewVote(s, s', n);
    StepGrows(s, s', n);
    CommitCarried(s, s', n);
    SafeKept(s, s', n);
  }

  // --------------------------------------------------------------- delivering

  /** A locked prefix the receiver accepted earlier is still there after the
      merge. */
  lemma DeliverKeepsLocked(s: Cluster, q: AppendRequest, v: NodeId, t: nat, i: nat)
    requires NetOk(s) && AcksOk(s) && ReignsHold(s) && NodesHold(s)
    requires q in s.net && v in s.members && Accepts(Rep(s, v), q)
    requires Locked(s, t, i) && i <= Ack(s, v, t)
    ensures Holds(s, t, i, Merge(Rep(s, v).log, q.prevLogIndex, q.entries))
  {
    hide NetOk, AcksOk, ReignsHold, NodesHold, Locked, Merge;
    LockFacts(s, t, i);
    NetAt(s, q);
    AckAt(s, v, t);
    HoldsFor(s, t, i, v);
    ReignHolds(s, t, i, q.term);
    MergeKeepsCommonPrefix(Rep(s, v).log, q.prevLogIndex, End(q), s.reigns[q.term].log, s.reigns[t].log[..i]);
  }

  lemma LockFacts(s: Cluster, t: nat, i: nat)
    requires Locked(s, t, i)
    ensures t in s.reigns && 1 <= i <= |s.reigns[t].log|
  {
  }

  lemma DeliverHold(s: Cluster, q: AppendRequest, v: NodeId)
    requires LogsOk(s) && NetOk(s) && AcksOk(s) && ReignsHold(s) && NodesHold(s)
    requires q in s.net && v in s.members
    ensures v in DeliverStep(s, q, v).members && HoldStep(s, DeliverStep(s, q, v), v)
  {
    hide LogsOk, NetOk, AcksOk, ReignsHold, NodesHold, Locked, DeliverStep, StepOf, Merge;
    var s' := DeliverStep(s, q, v);
    DeliverFacts(s, q, v);
    forall t: nat, i: nat | Locked(s, t, i) && i <= Ack(s', v, t) ensures Holds(s, t, i, Rep(s', v).log) {
      LockFacts(s, t, i);
      if !Accepts(Rep(s, v), q) {
        HoldsFor(s, t, i, v);
      } else if i <= Ack(s, v, t) {
        DeliverKeepsLocked(s, q, v, t, i);
      } else {
        DeliveredAck(s, q, v);
      }
    }
  }

  /** Applying up to an index that is backed. */
  lemma CommitToOk(s: Cluster, r: Replica, c: nat)
    requires CommitOk(s, r) && r.commitIndex < c <= |r.log|
    requires Backed(s, r.term, r.log[..c])
    ensures CommitOk(s, CommitTo(r, c))
  {
    hide Backed;
    ApplyAllConcat(map[], r.log[..r.lastApplied], r.log[r.lastApplied..c]);
    assert r.log[..r.lastApplied] + r.log[r.lastApplied..c] == r.log[..c];
  }

  /** The committed part of the receiver's log survives the merge, because the
      sender has it too. */
  lemma CommittedSurvives(s: Cluster, q: AppendRequest, v: NodeId)
    requires NetOk(s) && ReignsHold(s) && CommitsOk(s) && q in s.net && v in s.members
    requires Accepts(Rep(s, v), q)
    ensures Rep(s, v).commitIndex <= |Rep(s, v).log|
    ensures Rep(s, v).log[..Rep(s, v).commitIndex] <= Merge(Rep(s, v).log, q.prevLogIndex, q.entries)
  {
    hide NetOk, ReignsHold, CommitsOk, Merge, Backed;
    var r := Rep(s, v);
    NetAt(s, q);
    CommitAt(s, v);
    BackedInReign(s, r.term, r.log[..r.commitIndex], q.term);
    MergeKeepsCommonPrefix(r.log, q.prevLogIndex, End(q), s.reigns[q.term].log, r.log[..r.commitIndex]);
  }

  /** The receiver commits what the request announces, and it has it. */
  lemma StoreCommitOk(s: Cluster, q: AppendRequest, r: Replica)
    requires CommitOk(s, r) && q.term in s.reigns && AnnouncedOk(s, q) && r.term == q.term
    requires s.reigns[q.term].log[..End(q)] <= r.log
    ensures q.leaderCommit <= |r.log|
    ensures q.leaderCommit > r.commitIndex ==> CommitOk(s, CommitTo(r, q.leaderCommit))
  {
    hide Backed, CommitTo;
    if q.leaderCommit > r.commitIndex {
      assert s.reigns[q.term].log[..End(q)][..q.leaderCommit] == s.reigns[q.term].log[..q.leaderCommit];
      assert r.log[..q.leaderCommit] == s.reigns[q.term].log[..q.leaderCommit];
      CommitToOk(s, r, q.leaderCommit);
    }
  }

  lemma DeliverReplica(s: Cluster, q: AppendRequest, v: NodeId)
    requires v in s.members
    ensures v in DeliverStep(s, q, v).members
    ensures Rep(DeliverStep(s, q, v), v) == HandleAppend(Rep(s, v), q).0
  {
    hide HandleAppend;
  }

  lemma DeliverCommitOk(s: Cluster, q: AppendRequest, v: NodeId)
    requires LogsOk(s) && NetOk(s) && ReignsHold(s) && CommitsOk(s) && NetCommitsOk(s)
    requires q in s.net && v in s.members
    ensures CommitOk(s, HandleAppend(Rep(s, v), q).0)
  {
    hide LogsOk, NetOk, ReignsHold, CommitsOk, NetCommitsOk, Merge, CommitOk, CommitTo, AnnouncedOk, Grows;
    var r := Rep(s, v);
    CommitAt(s, v);
    CommitOkTerm(s, r, AdoptTerm(r, q.term));
    if Accepts(r, q) {
      var stored := AdoptTerm(r, q.term).(log := Merge(r.log, q.prevLogIndex, q.entries));
      CommittedSurvives(s, q, v);
      CommitOkTerm(s, r, stored);
      AnnouncedAt(s, q);
      DeliveredLog(s, q, v);
      StoreCommitOk(s, q, stored);
    }
  }

  lemma CommitOkTerm(s: Cluster, r: Replica, r': Replica)
    requires CommitOk(s, r) && r.commitIndex <= |r.log|
    requires r.term <= r'.term && r.commitIndex == r'.commitIndex && r.lastApplied == r'.lastApplied
    requires r.table == r'.table && r.log[..r.commitIndex] <= r'.log
    ensures CommitOk(s, r')
  {
    CommitOkKept(s, s, r, r');
  }

  lemma DeliverSafe(s: Cluster, q: AppendRequest, v: NodeId)
    requires Base(s) && Safe(s) && Enabled(s, Deliver(q, v), true)
    ensures Safe(DeliverStep(s, q, v))
  {
    hide Shape, VotesOk, CandidatesOk, LeadersOk, ReignsOk, BallotsOk, LogsOk, NetOk, AcksOk, Bookkept;
    hide ReignsHold, NodesHold, VotersHold, CommitsOk, NetCommitsOk, CommitOk, DeliverStep, Merge, HandleAppend;
    hide VotesStep, RoundStep, LeaderStep, ReignStep, BallotStep, HoldStep, VoteStep, StepOf, Grows;
    var s' := DeliverStep(s, q, v);
    NetAt(s, q);
    DeliverBase(s, q, v);
    DeliverElectoral(s, q, v);
    DeliverFacts(s, q, v);
    DeliverHold(s, q, v);
    NoNewVote(s, s', v);
    StepGrows(s, s', v);
    DeliverCommitOk(s, q, v);
    DeliverReplica(s, q, v);
    CommitOkSame(s, s', Rep(s', v));
    SafeKeptSameReigns(s, s', v);
  }

  // ------------------------------------------------------ sending and counting

  lemma SendAnnounced(s: Cluster, n: NodeId, f: NodeId)
    requires LeadersOk(s) && ReignsOk(s) && CommitsOk(s) && CanExchange(s, n, f)
    requires Grows(s, SendStep(s, n, f))
    ensures AnnounceStep(s, SendStep(s, n, f))
  {
    hide LeadersOk, ReignsOk, CommitsOk, Backed, Grows;
    var s' := SendStep(s, n, f);
    var r := Rep(s, n);
    LeaderAt(s, n);
    CommitAt(s, n);
    BackedGrows(s, s', r.term, r.term, r.log[..r.commitIndex]);
  }

  lemma SendSafe(s: Cluster, n: NodeId, f: NodeId)
    requires Base(s) && Safe(s) && CanExchange(s, n, f)
    ensures Safe(SendStep(s, n, f))
  {
    hide Shape, VotesOk, CandidatesOk, LeadersOk, ReignsOk, BallotsOk, LogsOk, NetOk, AcksOk, Bookkept;
    hide ReignsHold, NodesHold, VotersHold, CommitsOk, NetCommitsOk, CommitOk, AnnounceStep, CanSend, BuildAppend;
    hide VotesStep, RoundStep, LeaderStep, ReignStep, BallotStep, HoldStep, VoteStep, StepOf, Grows, ReplicatedStep;
    var s' := SendStep(s, n, f);
    SendStepOk(s, n, f);
    SendBase(s, n, f);
    SameHold(s, s', n);
    NoNewVote(s, s', n);
    StepGrows(s, s', n);
    CommitCarried(s, s', n);
    SendAnnounced(s, n, f);
    SafeKeptSameReigns(s, s', n);
  }

  /** What the leader's counting means: a majority of the nodes, itself
      included, has accepted the first c entries of its log in its term. */
  lemma CountedIsCommitted(s: Cluster, n: NodeId, r: Replica, c: nat)
    requires Shape(s) && LeadersOk(s) && ReignsOk(s) && n in s.members && Rep(s, n).role == Leader
    requires r.peers == Rep(s, n).peers && r.term == Rep(s, n).term && r.log == Rep(s, n).log
    requires r.matchIndex.Keys <= r.peers
    requires forall f :: f in r.matchIndex ==> f in s.members && r.matchIndex[f] <= Ack(s, f, r.term)
    requires |r.log| <= Ack(s, n, r.term)
    requires Committable(r, c)
    ensures Committed(s, r.term, c) && s.reigns[r.term].log == r.log
  {
    hide LeadersOk, ReignsOk, Shape;
    LeaderAt(s, n);
    ShapeAt(s, n);
    CountedInAckers(s, n, r, c);
  }

  lemma ShapeAt(s: Cluster, n: NodeId)
    requires Shape(s) && n in s.members
    ensures Rep(s, n).peers == s.members.Keys - {n} && |s.members| - 1 == |Rep(s, n).peers|
  {
  }

  lemma CountedInAckers(s: Cluster, n: NodeId, r: Replica, c: nat)
    requires n in s.members && n !in r.matchIndex && c <= Ack(s, n, r.term)
    requires forall f :: f in r.matchIndex ==> f in s.members && r.matchIndex[f] <= Ack(s, f, r.term)
    ensures ReplicationCount(r.matchIndex, c) <= |Ackers(s, r.term, c)|
    ensures Ackers(s, r.term, c) <= s.members.Keys
  {
    var counted := set f | f in r.matchIndex && r.matchIndex[f] >= c;
    assert |counted + {n}| == ReplicationCount(r.matchIndex, c);
    SubsetCardinality(counted + {n}, Ackers(s, r.term, c));
  }

  lemma UpdateCommitOk(s: Cluster, n: NodeId, r: Replica)
    requires Shape(s) && LeadersOk(s) && ReignsOk(s) && n in s.members && Rep(s, n).role == Leader
    requires r.peers == Rep(s, n).peers && r.term == Rep(s, n).term && r.log == Rep(s, n).log
    requires r.matchIndex.Keys <= r.peers
    requires forall f :: f in r.matchIndex ==> f in s.members && r.matchIndex[f] <= Ack(s, f, r.term)
    requires |r.log| <= Ack(s, n, r.term)
    requires CommitOk(s, r)
    ensures CommitOk(s, UpdateCommit(r))
  {
    hide Shape, LeadersOk, ReignsOk, CommitOk, CommitTo, Committed, Committable;
    var c := HighestCommittable(r, |r.log|);
    if c > r.commitIndex {
      CountedIsCommitted(s, n, r, c);
      assert BackedBy(s, r.term, r.log[..c], r.term, c);
      CommitToOk(s, r, c);
    }
  }

  /** A leader's update of its bookkeeping, commit index and table. */
  lemma LeaderUpdateSafe(s: Cluster, n: NodeId, r: Replica)
    requires Base(s) && Safe(s) && LeaderUpdate(s, n, r)
    requires Base(SetReplica(s, n, r))
    requires StepOf(s, SetReplica(s, n, r), n)
    requires CommitOk(s, r)
    ensures Safe(SetReplica(s, n, r))
  {
    hide Shape, VotesOk, CandidatesOk, LeadersOk, ReignsOk, BallotsOk, LogsOk, NetOk, AcksOk, Bookkept;
    hide ReignsHold, NodesHold, VotersHold, CommitsOk, NetCommitsOk, CommitOk;
    hide HoldStep, VoteStep, StepOf, Grows;
    var s' := SetReplica(s, n, r);
    SameHold(s, s', n);
    NoNewVote(s, s', n);
    StepGrows(s, s', n);
    CommitOkSame(s, s', r);
    SafeKeptSameReigns(s, s', n);
  }

  /** The numbers a leader counts with after a change of its bookkeeping. */
  lemma CountFacts(s: Cluster, n: NodeId)
    requires Shape(s) && MatchesOk(s) && CountsOk(s) && n in s.members && Rep(s, n).role == Leader
    ensures Rep(s, n).matchIndex.Keys <= Rep(s, n).peers
    ensures |Rep(s, n).log| <= Ack(s, n, Rep(s, n).term)
    ensures forall f :: f in Rep(s, n).matchIndex ==>
              f in s.members && Rep(s, n).matchIndex[f] <= Ack(s, f, Rep(s, n).term)
  {
    forall f | f in Rep(s, n).matchIndex
      ensures f in s.members && Rep(s, n).matchIndex[f] <= Ack(s, f, Rep(s, n).term)
    {
      assert f in Rep(s, n).peers;
      assert MatchOk(s, Rep(s, n), f);
    }
  }

  lemma RecountSafe(s: Cluster, n: NodeId)
    requires Base(s) && Safe(s) && n in s.members && Rep(s, n).role == Leader
    ensures Safe(SetReplica(s, n, UpdateCommit(Rep(s, n))))
  {
    hide Shape, VotesOk, CandidatesOk, LeadersOk, ReignsOk, BallotsOk, Replicated, MatchesOk, CountsOk;
    hide ReignsHold, NodesHold, VotersHold, CommitsOk, NetCommitsOk, CommitOk, UpdateCommit, StepOf, SetReplica;
    var r := Rep(s, n);
    RecountBase(s, n);
    CountFacts(s, n);
    CommitAt(s, n);
    UpdateCommitFacts(r);
    UpdateCommitOk(s, n, r);
    LeaderUpdateSafe(s, n, UpdateCommit(r));
  }

  lemma ReplyCommitOk(s: Cluster, n: NodeId, f: NodeId, success: bool)
    requires Base(s) && CommitsOk(s) && n in s.members && f in s.members && f != n && Rep(s, n).role == Leader
    requires success ==> |Rep(s, n).log| <= Ack(s, f, Rep(s, n).term)
    ensures CommitOk(s, HandleAppendReply(Rep(s, n), f, success))
    ensures LeaderUpdate(s, n, HandleAppendReply(Rep(s, n), f, success))
  {
    hide VotesOk, CandidatesOk, LeadersOk, ReignsOk, BallotsOk, Replicated, MatchesOk, CountsOk;
    hide CommitsOk, CommitOk, UpdateCommit;
    var r := Rep(s, n);
    CountFacts(s, n);
    CommitAt(s, n);
    if success {
      var told := r.(nextIndex := r.nextIndex[f := |r.log| + 1], matchIndex := r.matchIndex[f := |r.log|]);
      CommitOkTerm(s, r, told);
      UpdateCommitFacts(told);
      UpdateCommitOk(s, n, told);
    } else {
      CommitOkTerm(s, r, HandleAppendReply(r, f, false));
    }
  }

  lemma ReplySafe(s: Cluster, n: NodeId, f: NodeId, success: bool)
    requires Base(s) && Safe(s) && n in s.members && f in s.members && f != n && Rep(s, n).role == Leader
    requires success ==> |Rep(s, n).log| <= Ack(s, f, Rep(s, n).term)
    ensures Safe(SetReplica(s, n, HandleAppendReply(Rep(s, n), f, success)))
  {
    hide Base, ReignsHold, NodesHold, VotersHold, CommitsOk, NetCommitsOk, CommitOk, StepOf, SetReplica, HandleAppendReply, LeaderUpdate;
    ReplyBase(s, n, f, success);
    ReplyCommitOk(s, n, f, success);
    LeaderUpdateSafe(s, n, HandleAppendReply(Rep(s, n), f, success));
  }
}

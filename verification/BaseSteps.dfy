/** Every action keeps the base invariant, with or without the voters'
    up-to-date check. */
module BaseSteps {
  import opened Types
  import opened Logs
  import opened Replicas
  import opened Quorums
  import opened Clusters
  import opened BaseInvariant

  lemma InitBase(ids: set<NodeId>)
    requires |ids| % 2 == 1
    ensures Base(Init(ids))
  {
    assert Init(ids).members.Keys == ids;
  }

  // ----------------------------------------------------- single facts, taken out

  lemma BallotAt(s: Cluster, b: VoteRequest)
    requires BallotsOk(s) && b in s.ballots
    ensures b.candidateId in s.members && BallotOk(s, b, Rep(s, b.candidateId))
  {
  }

  lemma VoteAt(s: Cluster, v: NodeId, t: nat)
    requires VotesOk(s) && v in s.members
    ensures t in s.members[v].voted ==> VoteOk(s, t, v, s.members[v].voted[t])
  {
  }

  lemma NetAt(s: Cluster, q: AppendRequest)
    requires NetOk(s) && q in s.net
    ensures q.term in s.reigns && SliceOf(q, s.reigns[q.term].log)
  {
  }

  lemma ReignLogAt(s: Cluster, t: nat)
    requires LogsOk(s) && t in s.reigns
    ensures LogOk(s.reigns, s.reigns[t].log, t)
  {
  }

  lemma LogAt(s: Cluster, n: NodeId)
    requires LogsOk(s) && n in s.members
    ensures LogOk(s.reigns, Rep(s, n).log, Rep(s, n).term)
  {
  }

  lemma CandidateAt(s: Cluster, c: NodeId)
    requires CandidatesOk(s) && c in s.members
    ensures Rep(s, c).role == Candidate ==> CandidateOk(s, c)
  {
  }

  /** A leader's reign has its log, and it has accepted no more than that. */
  lemma LeaderAt(s: Cluster, n: NodeId)
    requires LeadersOk(s) && ReignsOk(s) && n in s.members && Rep(s, n).role == Leader
    ensures Rep(s, n).term in s.reigns && s.reigns[Rep(s, n).term] == Reign(n, Rep(s, n).log)
  {
    assert ReignOk(s, Rep(s, n).term, n);
  }

  lemma AckAt(s: Cluster, v: NodeId, t: nat)
    requires AcksOk(s) && v in s.members
    ensures t in s.members[v].acked ==> AckOk(s, v, t, s.members[v].acked[t])
  {
  }

  // ---------------------------------------------------------------- elections

  lemma ElectElectoral(s: Cluster, n: NodeId)
    requires VotesOk(s) && n in s.members && Rep(s, n).id == n
    ensures ElectoralStep(s, ElectStep(s, n), n)
  {
    hide VotesOk;
    VoteAt(s, n, Rep(s, n).term + 1);
  }

  lemma ElectBase(s: Cluster, n: NodeId)
    requires Base(s) && n in s.members
    ensures Base(ElectStep(s, n))
  {
    hide StepOf, LogStep, NetStep, AckStep, MatchStep, ReplicatedStep;
    hide VotesOk, CandidatesOk, LeadersOk, ReignsOk, BallotsOk, LogsOk, NetOk, AcksOk, MatchesOk, CountsOk;
    ElectElectoral(s, n);
    QuietReplication(s, ElectStep(s, n), n);
    StepBase(s, ElectStep(s, n), n);
  }

  lemma VoterElectoral(s: Cluster, ballot: VoteRequest, v: NodeId, reply: VoteReply)
    requires BallotsOk(s) && ballot in s.ballots && v in s.members && v != ballot.candidateId
    requires VoterContract(s.members[v], ballot, reply, false)
    ensures ElectoralStep(s, VoterStep(s, ballot, v, reply), v)
  {
    hide BallotsOk;
    BallotAt(s, ballot);
  }

  lemma VoterBase(s: Cluster, ballot: VoteRequest, v: NodeId, reply: VoteReply)
    requires Base(s) && ballot in s.ballots && v in s.members && v != ballot.candidateId
    requires VoterContract(s.members[v], ballot, reply, false)
    ensures Base(VoterStep(s, ballot, v, reply))
  {
    hide StepOf, LogStep, NetStep, AckStep, MatchStep, ReplicatedStep;
    hide VotesOk, CandidatesOk, LeadersOk, ReignsOk, BallotsOk, LogsOk, NetOk, AcksOk, MatchesOk, CountsOk;
    VoterElectoral(s, ballot, v, reply);
    QuietReplication(s, VoterStep(s, ballot, v, reply), v);
    StepBase(s, VoterStep(s, ballot, v, reply), v);
  }

  lemma CandidateElectoral(s: Cluster, ballot: VoteRequest, v: NodeId, reply: VoteReply)
    requires CandidatesOk(s) && ballot.candidateId in s.members && v != ballot.candidateId
    requires reply.voteGranted ==> VotedFor(s, v, ballot.term, ballot.candidateId)
    ensures ElectoralStep(s, CandidateStep(s, ballot, v, reply), ballot.candidateId)
  {
    hide CandidatesOk;
    CandidateAt(s, ballot.candidateId);
  }

  lemma CandidateBase(s: Cluster, ballot: VoteRequest, v: NodeId, reply: VoteReply)
    requires Base(s) && ballot.candidateId in s.members && v != ballot.candidateId
    requires reply.voteGranted ==> VotedFor(s, v, ballot.term, ballot.candidateId)
    ensures Base(CandidateStep(s, ballot, v, reply))
  {
    hide StepOf, LogStep, NetStep, AckStep, MatchStep, ReplicatedStep;
    hide VotesOk, CandidatesOk, LeadersOk, ReignsOk, BallotsOk, LogsOk, NetOk, AcksOk, MatchesOk, CountsOk;
    CandidateElectoral(s, ballot, v, reply);
    QuietReplication(s, CandidateStep(s, ballot, v, reply), ballot.candidateId);
    StepBase(s, CandidateStep(s, ballot, v, reply), ballot.candidateId);
  }

  /** The winner's term has no leader yet: two majorities of voters share a
      node, and it votes once. */
  lemma WinnerIsFirst(s: Cluster, n: NodeId)
    requires Electoral(s) && Enabled(s, Win(n), false)
    ensures Majority(s.members.Keys, Voters(s, Rep(s, n).term, n))
    ensures Rep(s, n).term !in s.reigns
  {
    var t := Rep(s, n).term;
    assert CandidateOk(s, n);
    var counted := s.members[n].granted + {n};
    SubsetCardinality(counted, Voters(s, t, n));
    if t in s.reigns {
      assert ReignOk(s, t, s.reigns[t].leader);
      var x := MajoritiesMeet(s.members.Keys, Voters(s, t, n), Voters(s, t, s.reigns[t].leader));
      assert false;
    }
  }

  lemma WinGrows(s: Cluster, n: NodeId)
    requires AcksOk(s) && n in s.members && Rep(s, n).term !in s.reigns
    ensures StepOf(s, WinStep(s, n), n)
  {
    hide AcksOk;
    AckAt(s, n, Rep(s, n).term);
  }

  lemma WinElectoral(s: Cluster, n: NodeId)
    requires AcksOk(s) && n in s.members && Rep(s, n).term !in s.reigns
    requires Majority(s.members.Keys, Voters(s, Rep(s, n).term, n))
    ensures ElectoralStep(s, WinStep(s, n), n)
  {
    hide AcksOk, Majority, Voters, StepOf, Grows;
    var s' := WinStep(s, n);
    WinGrows(s, n);
    StepGrows(s, s', n);
    VotersGrow(s, s', Rep(s, n).term, n);
  }

  lemma WinReplicated(s: Cluster, n: NodeId)
    requires LogsOk(s) && n in s.members && Rep(s, n).term !in s.reigns
    requires Rep(s, n).peers == s.members.Keys - {n}
    requires StepOf(s, WinStep(s, n), n)
    ensures ReplicatedStep(s, WinStep(s, n), n)
  {
    hide LogsOk;
    var s' := WinStep(s, n);
    LogAt(s, n);
    CanonExtends(s.reigns, s'.reigns, Rep(s, n).log);
  }

  lemma WinBase(s: Cluster, n: NodeId)
    requires Base(s) && Enabled(s, Win(n), false)
    ensures Base(WinStep(s, n))
  {
    hide VotesOk, CandidatesOk, LeadersOk, ReignsOk, BallotsOk, LogsOk, NetOk, AcksOk, MatchesOk, CountsOk;
    WinnerIsFirst(s, n);
    WinElectoral(s, n);
    WinReplicated(s, n);
    StepBase(s, WinStep(s, n), n);
  }

  // -------------------------------------------------------------- replication

  lemma ProposeElectoral(s: Cluster, n: NodeId, key: string, value: string)
    requires LeadersOk(s) && ReignsOk(s) && AcksOk(s) && n in s.members && Rep(s, n).role == Leader
    ensures ElectoralStep(s, ProposeStep(s, n, key, value), n)
  {
    hide LeadersOk, ReignsOk, AcksOk;
    LeaderAt(s, n);
    AckAt(s, n, Rep(s, n).term);
  }

  /** An entry of the leader's own term at the end of its log is in line with
      the reign it extends. */
  lemma AppendLogOk(reigns: map<nat, Reign>, reigns': map<nat, Reign>, log: Log, e: LogEntry)
    requires LogOk(reigns, log, e.term) && ReignsGrow(reigns, reigns')
    requires e.term in reigns' && reigns'[e.term].log == log + [e]
    ensures LogOk(reigns', log + [e], e.term)
  {
    var log' := log + [e];
    CanonExtends(reigns, reigns', log);
    forall i | 0 <= i < |log'| ensures CanonAt(reigns', log', i) {
      if i < |log| {
        assert CanonAt(reigns', log, i);
        assert log'[..i + 1] == log[..i + 1];
      }
    }
  }

  lemma ProposeReplicated(s: Cluster, n: NodeId, key: string, value: string)
    requires LeadersOk(s) && ReignsOk(s) && LogsOk(s) && n in s.members && Rep(s, n).role == Leader
    requires StepOf(s, ProposeStep(s, n, key, value), n)
    ensures ReplicatedStep(s, ProposeStep(s, n, key, value), n)
  {
    hide LeadersOk, ReignsOk, LogsOk;
    LeaderAt(s, n);
    LogAt(s, n);
    AppendLogOk(s.reigns, ProposeStep(s, n, key, value).reigns, Rep(s, n).log, LogEntry(Rep(s, n).term, key, value));
  }

  lemma ProposeBase(s: Cluster, n: NodeId, key: string, value: string)
    requires Base(s) && n in s.members && Rep(s, n).role == Leader
    ensures Base(ProposeStep(s, n, key, value))
  {
    hide VotesOk, CandidatesOk, LeadersOk, ReignsOk, BallotsOk, LogsOk, NetOk, AcksOk, MatchesOk, CountsOk;
    ProposeElectoral(s, n, key, value);
    ProposeReplicated(s, n, key, value);
    StepBase(s, ProposeStep(s, n, key, value), n);
  }

  lemma SendStepOk(s: Cluster, n: NodeId, f: NodeId)
    requires LeadersOk(s) && ReignsOk(s) && CanExchange(s, n, f)
    ensures ElectoralStep(s, SendStep(s, n, f), n)
    ensures ReplicatedStep(s, SendStep(s, n, f), n)
  {
    hide LeadersOk, ReignsOk;
    LeaderAt(s, n);
    QuietStep(s, SendStep(s, n, f), n);
  }

  lemma SendBase(s: Cluster, n: NodeId, f: NodeId)
    requires Base(s) && CanExchange(s, n, f)
    ensures Base(SendStep(s, n, f))
  {
    hide VotesOk, CandidatesOk, LeadersOk, ReignsOk, BallotsOk, LogsOk, NetOk, AcksOk, MatchesOk, CountsOk;
    SendStepOk(s, n, f);
    StepBase(s, SendStep(s, n, f), n);
  }

  predicate Accepts(r: Replica, q: AppendRequest) {
    q.term >= r.term && PrevMatches(r.log, q)
  }

  function End(q: AppendRequest): nat {
    q.prevLogIndex + |q.entries|
  }

  /** What a delivery does, apart from commit index and table. */
  lemma DeliverFacts(s: Cluster, q: AppendRequest, v: NodeId)
    requires v in s.members
    ensures
      var s' := DeliverStep(s, q, v);
      && s'.net == s.net && s'.ballots == s.ballots && s'.reigns == s.reigns
      && StepOf(s, s', v) && v in s'.members
    ensures
      var m, m' := s.members[v], DeliverStep(s, q, v).members[v];
      var r, r' := m.replica, m'.replica;
      && r'.term == (if q.term > r.term then q.term else r.term)
      && r'.role == (if q.term > r.term then Follower else r.role)
      && m'.voted == m.voted && m'.granted == m.granted
      && r'.nextIndex == r.nextIndex && r'.matchIndex == r.matchIndex
      && r'.log == (if Accepts(r, q) then Merge(r.log, q.prevLogIndex, q.entries) else r.log)
      && m'.acked == (if Accepts(r, q) && Ack(s, v, q.term) < End(q) then m.acked[q.term := End(q)] else m.acked)
  {
    hide Merge, ApplyAll;
  }

  /** Logs, indices, tables and bookkeeping of all nodes are left alone. */
  ghost predicate VotesOnly(s: Cluster, s': Cluster) {
    && s'.members.Keys == s.members.Keys
    && forall x :: x in s.members ==> VoteOnly(Rep(s, x), Rep(s', x))
  }

  predicate VoteOnly(r: Replica, r': Replica) {
    && r' == r.(role := r'.role, term := r'.term, votedFor := r'.votedFor)
    && (r'.role == Leader ==> r.role == Leader && r'.term == r.term)
  }

  lemma VoterReplicas(s: Cluster, ballot: VoteRequest, v: NodeId, reply: VoteReply)
    requires v in s.members
    ensures VotesOnly(s, VoterStep(s, ballot, v, reply))
  {
  }

  lemma CandidateReplicas(s: Cluster, ballot: VoteRequest, v: NodeId, reply: VoteReply)
    requires ballot.candidateId in s.members
    ensures VotesOnly(s, CandidateStep(s, ballot, v, reply))
  {
  }

  lemma AnswerReplicas(s: Cluster, ballot: VoteRequest, v: NodeId, reply: VoteReply, received: bool, checked: bool)
    requires Enabled(s, AnswerVote(ballot, v, reply, received), checked)
    ensures VotesOnly(s, Step(s, AnswerVote(ballot, v, reply, received), checked))
  {
    hide VoterStep, CandidateStep, VoterContract;
    var voted := VoterStep(s, ballot, v, reply);
    VoterReplicas(s, ballot, v, reply);
    if received {
      CandidateReplicas(voted, ballot, v, reply);
      var after := CandidateStep(voted, ballot, v, reply);
      forall x | x in s.members ensures VoteOnly(Rep(s, x), Rep(after, x)) {
        assert VoteOnly(Rep(s, x), Rep(voted, x)) && VoteOnly(Rep(voted, x), Rep(after, x));
      }
    }
  }

  /** Who an exchange changes, and how. */
  lemma ExchangeReplicas(s: Cluster, n: NodeId, f: NodeId)
    requires CanExchange(s, n, f)
    ensures
      var s', q := ExchangeStep(s, n, f), BuildAppend(Rep(s, n), f);
      && s'.members.Keys == s.members.Keys
      && Rep(s', n) == HandleAppendReply(Rep(s, n), f, HandleAppend(Rep(s, f), q).1)
      && Rep(s', f) == HandleAppend(Rep(s, f), q).0
      && (forall x :: x in s.members && x != n && x != f ==> s'.members[x] == s.members[x])
  {
    hide HandleAppend, HandleAppendReply, BuildAppend, CanSend;
  }

  /** The receiver's log after an accepted request. */
  lemma DeliveredLog(s: Cluster, q: AppendRequest, v: NodeId)
    requires LogsOk(s) && NetOk(s) && q in s.net && v in s.members
    requires PrevMatches(Rep(s, v).log, q)
    ensures
      var merged := Merge(Rep(s, v).log, q.prevLogIndex, q.entries);
      var sent := s.reigns[q.term].log[..q.prevLogIndex + |q.entries|];
      sent <= merged && merged in {Rep(s, v).log, sent}
  {
    hide LogsOk, NetOk, Merge, Canon;
    NetAt(s, q);
    LogAt(s, v);
    ReignLogAt(s, q.term);
    var l := s.reigns[q.term].log;
    MergeUnderReign(s.reigns, Rep(s, v).log, q.prevLogIndex, q.prevLogIndex + |q.entries|, l);
  }

  lemma PrefixLogOk(reigns: map<nat, Reign>, log: Log, term: nat, n: nat)
    requires LogOk(reigns, log, term) && n <= |log|
    ensures LogOk(reigns, log[..n], term)
  {
    var front := log[..n];
    forall i | 0 <= i < |front| ensures CanonAt(reigns, front, i) {
      assert CanonAt(reigns, log, i);
      assert front[..i + 1] == log[..i + 1];
    }
  }

  /** A request never reaches the leader of its own term. */
  lemma DeliverElectoral(s: Cluster, q: AppendRequest, v: NodeId)
    requires LeadersOk(s) && v in s.members && q.term in s.reigns && s.reigns[q.term].leader != v
    ensures ElectoralStep(s, DeliverStep(s, q, v), v)
    ensures Rep(s, v).role == Leader ==> q.term != Rep(s, v).term
  {
    hide DeliverStep, StepOf, Merge, PrevMatches;
    DeliverFacts(s, q, v);
    QuietStep(s, DeliverStep(s, q, v), v);
  }

  lemma DeliverLogStep(s: Cluster, q: AppendRequest, v: NodeId)
    requires LogsOk(s) && NetOk(s) && q in s.net && v in s.members
    ensures LogStep(s, DeliverStep(s, q, v), v) && NetStep(s, DeliverStep(s, q, v))
  {
    hide DeliverStep, StepOf, LogsOk, NetOk, Merge, LogOk;
    DeliverFacts(s, q, v);
    NetAt(s, q);
    if Accepts(Rep(s, v), q) {
      DeliveredLog(s, q, v);
      ReignLogAt(s, q.term);
      PrefixLogOk(s.reigns, s.reigns[q.term].log, q.term, End(q));
    }
  }

  /** The accepted part of the term's log is the beginning of the new log. */
  lemma DeliveredAck(s: Cluster, q: AppendRequest, v: NodeId)
    requires LogsOk(s) && NetOk(s) && AcksOk(s) && q in s.net && v in s.members
    requires Accepts(Rep(s, v), q)
    ensures
      var l := s.reigns[q.term].log;
      && End(q) <= |l| && Ack(s, v, q.term) <= |l|
      && l[..End(q)] <= Merge(Rep(s, v).log, q.prevLogIndex, q.entries)
      && l[..Ack(s, v, q.term)] <= Merge(Rep(s, v).log, q.prevLogIndex, q.entries)
  {
    hide LogsOk, NetOk, AcksOk, Merge;
    NetAt(s, q);
    DeliveredLog(s, q, v);
    AckAt(s, v, q.term);
    var l := s.reigns[q.term].log;
    MergeKeepsCommonPrefix(Rep(s, v).log, q.prevLogIndex, End(q), l, l[..Ack(s, v, q.term)]);
  }

  lemma DeliverAckStep(s: Cluster, q: AppendRequest, v: NodeId)
    requires LogsOk(s) && NetOk(s) && AcksOk(s) && q in s.net && v in s.members
    ensures AckStep(s, DeliverStep(s, q, v), v)
  {
    hide DeliverStep, StepOf, LogsOk, NetOk, AcksOk, Merge, SliceOf;
    var s' := DeliverStep(s, q, v);
    DeliverFacts(s, q, v);
    NetAt(s, q);
    if Accepts(Rep(s, v), q) {
      DeliveredAck(s, q, v);
    }
    forall t | t in s'.members[v].acked
      ensures
        || AckOk(s', v, t, s'.members[v].acked[t])
        || (&& t in s.members[v].acked && s.members[v].acked[t] == s'.members[v].acked[t]
            && (Rep(s', v).term == t ==> Rep(s, v).log <= Rep(s', v).log))
    {
      AckAt(s, v, t);
    }
  }

  lemma DeliverBase(s: Cluster, q: AppendRequest, v: NodeId)
    requires Base(s) && Enabled(s, Deliver(q, v), false)
    ensures Base(DeliverStep(s, q, v))
  {
    hide DeliverStep, StepOf, LogsOk, AcksOk, LeadersOk, VotesOk, CandidatesOk, ReignsOk, BallotsOk, MatchesOk;
    hide LogStep, NetStep, AckStep, Merge;
    NetAt(s, q);
    DeliverFacts(s, q, v);
    DeliverElectoral(s, q, v);
    DeliverLogStep(s, q, v);
    DeliverAckStep(s, q, v);
    StepBase(s, DeliverStep(s, q, v), v);
  }

  /** A change to what a leader keeps about its peers, its commit index and its
      table. */
  ghost predicate LeaderUpdate(s: Cluster, n: NodeId, r: Replica) {
    && n in s.members && Rep(s, n).role == Leader
    && r.id == Rep(s, n).id && r.peers == Rep(s, n).peers && r.role == Leader
    && r.term == Rep(s, n).term && r.log == Rep(s, n).log
    && r.matchIndex.Keys <= r.peers + Rep(s, n).matchIndex.Keys
  }

  lemma LeaderUpdateSteps(s: Cluster, n: NodeId, r: Replica)
    requires LeaderUpdate(s, n, r)
    requires forall f :: f in s.members && f != n ==> MatchOk(s, r, f)
    ensures ElectoralStep(s, SetReplica(s, n, r), n)
    ensures ReplicatedStep(s, SetReplica(s, n, r), n)
  {
    var s' := SetReplica(s, n, r);
    QuietStep(s, s', n);
    forall f | f in s'.members && f != n ensures MatchOk(s', r, f) {
      assert MatchOk(s, r, f);
    }
  }

  lemma LeaderUpdateBase(s: Cluster, n: NodeId, r: Replica)
    requires Base(s) && LeaderUpdate(s, n, r)
    requires forall f :: f in s.members && f != n ==> MatchOk(s, r, f)
    ensures Base(SetReplica(s, n, r)) && StepOf(s, SetReplica(s, n, r), n)
  {
    hide Base, MatchOk;
    LeaderUpdateSteps(s, n, r);
    StepBase(s, SetReplica(s, n, r), n);
  }

  lemma UpdateCommitFacts(r: Replica)
    ensures
      var r' := UpdateCommit(r);
      && r'.id == r.id && r'.peers == r.peers && r'.role == r.role && r'.term == r.term
      && r'.log == r.log && r'.nextIndex == r.nextIndex && r'.matchIndex == r.matchIndex
  {
    hide ApplyAll, Committable;
  }

  lemma RecountBase(s: Cluster, n: NodeId)
    requires Base(s) && n in s.members && Rep(s, n).role == Leader
    ensures Base(SetReplica(s, n, UpdateCommit(Rep(s, n))))
    ensures StepOf(s, SetReplica(s, n, UpdateCommit(Rep(s, n))), n)
  {
    hide Electoral, Replicated, MatchOk, UpdateCommit, StepOf;
    UpdateCommitFacts(Rep(s, n));
    MatchesUpdate(s, n, UpdateCommit(Rep(s, n)));
    LeaderUpdateBase(s, n, UpdateCommit(Rep(s, n)));
  }

  lemma MatchesUpdate(s: Cluster, n: NodeId, r: Replica)
    requires MatchesOk(s) && n in s.members && Rep(s, n).role == Leader
    requires r.term == Rep(s, n).term && r.log == Rep(s, n).log
    requires r.nextIndex == Rep(s, n).nextIndex && r.matchIndex == Rep(s, n).matchIndex
    ensures forall f :: f in s.members && f != n ==> MatchOk(s, r, f)
  {
    forall f | f in s.members && f != n ensures MatchOk(s, r, f) {
      assert MatchOk(s, Rep(s, n), f);
    }
  }

  /** Processing a reply. A positive one is only processed when the follower has
      accepted the whole log. */
  lemma ReplyBase(s: Cluster, n: NodeId, f: NodeId, success: bool)
    requires Base(s) && n in s.members && f in s.members && f != n && Rep(s, n).role == Leader
    requires success ==> |Rep(s, n).log| <= Ack(s, f, Rep(s, n).term)
    ensures Base(SetReplica(s, n, HandleAppendReply(Rep(s, n), f, success)))
    ensures StepOf(s, SetReplica(s, n, HandleAppendReply(Rep(s, n), f, success)), n)
  {
    hide Electoral, Replicated, StepOf, UpdateCommit;
    var r := Rep(s, n);
    var r' := HandleAppendReply(r, f, success);
    UpdateCommitFacts(r.(nextIndex := r.nextIndex[f := |r.log| + 1], matchIndex := r.matchIndex[f := |r.log|]));
    forall g | g in s.members && g != n ensures MatchOk(s, r', g) {
      assert MatchOk(s, r, g);
    }
    assert f in r.peers;
    LeaderUpdateBase(s, n, r');
  }
}

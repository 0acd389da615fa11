/** The properties of every run. `checked` says whether the voters compare logs;
    theorems without it as a hypothesis hold either way. The number of nodes is
    odd, that is, every node has an even number of peers. */
module Safety {
  import opened Types
  import opened Logs
  import opened Replicas
  import opened Quorums
  import opened Clusters
  import opened BaseInvariant
  import opened BaseSteps
  import opened SafeInvariant
  import opened SafeSteps
  import opened Steps

  ghost predicate LeaderAtTime(s: Cluster, n: NodeId, term: nat) {
    n in s.members && Rep(s, n).role == Leader && Rep(s, n).term == term
  }

  // ---------------------------------------------------------------- elections

  /** Two nodes never lead the same term, at the same time or at different
      times. */
  lemma ElectionSafety(ids: set<NodeId>, states: seq<Cluster>, actions: seq<Action>, checked: bool,
                       i: nat, j: nat, a: NodeId, b: NodeId, term: nat)
    requires |ids| % 2 == 1 && IsRun(ids, states, actions, checked)
    requires i < |states| && LeaderAtTime(states[i], a, term)
    requires j < |states| && LeaderAtTime(states[j], b, term)
    ensures a == b
  {
    hide IsRun, ReignsOk, VotesOk, CandidatesOk, BallotsOk, Replicated, Bookkept, MemberGrows;
    RunKeeps(ids, states, actions, checked, i);
    RunKeeps(ids, states, actions, checked, j);
    if i <= j {
      RunGrows(ids, states, actions, checked, i, j);
    } else {
      RunGrows(ids, states, actions, checked, j, i);
    }
  }

  // -------------------------------------------------------------- log matching

  lemma CanonOverTime(s: Cluster, s': Cluster, a: NodeId)
    requires LogsOk(s) && a in s.members && Grows(s, s')
    ensures Canon(s'.reigns, Rep(s, a).log)
  {
    LogAt(s, a);
    CanonExtends(s.reigns, s'.reigns, Rep(s, a).log);
  }

  /** If two logs, of any nodes at any times, hold entries of the same term at
      the same index, they are equal up to it. */
  lemma LogMatching(ids: set<NodeId>, states: seq<Cluster>, actions: seq<Action>, checked: bool,
                    i: nat, j: nat, a: NodeId, b: NodeId, k: nat)
    requires |ids| % 2 == 1 && IsRun(ids, states, actions, checked)
    requires i < |states| && a in states[i].members && k < |Rep(states[i], a).log|
    requires j < |states| && b in states[j].members && k < |Rep(states[j], b).log|
    requires Rep(states[i], a).log[k].term == Rep(states[j], b).log[k].term
    ensures Rep(states[i], a).log[..k + 1] == Rep(states[j], b).log[..k + 1]
    decreases if i <= j then 0 else 1
  {
    hide IsRun, Electoral, Bookkept, LogsOk, NetOk, AcksOk, Grows, Canon;
    if i <= j {
      RunKeeps(ids, states, actions, checked, i);
      RunKeeps(ids, states, actions, checked, j);
      RunGrows(ids, states, actions, checked, i, j);
      CanonOverTime(states[i], states[j], a);
      LogAt(states[j], b);
      CanonAgree(states[j].reigns, Rep(states[i], a).log, Rep(states[j], b).log, k);
    } else {
      LogMatching(ids, states, actions, checked, j, i, b, a, k);
    }
  }

  lemma TermsAscend(s: Cluster, log: Log, term: nat, k: nat, l: nat)
    requires LogsOk(s) && LogOk(s.reigns, log, term) && k <= l < |log|
    ensures log[k].term <= log[l].term
  {
    hide LogsOk, Canon;
    PrefixLogOk(s.reigns, log, term, l + 1);
    LastReign(s, log[..l + 1]);
    assert log[..l + 1][k] == log[k];
  }

  /** A node's term never goes down, bounds the terms in its log, and the terms
      in the log never go down from one entry to the next. */
  lemma TermDiscipline(ids: set<NodeId>, states: seq<Cluster>, actions: seq<Action>, checked: bool,
                       i: nat, j: nat, a: NodeId)
    requires |ids| % 2 == 1 && IsRun(ids, states, actions, checked)
    requires i <= j < |states| && a in states[i].members
    ensures a in states[j].members && Rep(states[i], a).term <= Rep(states[j], a).term
    ensures forall k :: 0 <= k < |Rep(states[i], a).log| ==> Rep(states[i], a).log[k].term <= Rep(states[i], a).term
    ensures forall k, l :: 0 <= k <= l < |Rep(states[i], a).log| ==>
              Rep(states[i], a).log[k].term <= Rep(states[i], a).log[l].term
  {
    hide IsRun, Electoral, Bookkept, LogsOk, NetOk, AcksOk, ReignsGrow, Canon;
    RunKeeps(ids, states, actions, checked, i);
    RunGrows(ids, states, actions, checked, i, j);
    assert MemberGrows(states[i].members[a], states[j].members[a]);
    LogAt(states[i], a);
    var log := Rep(states[i], a).log;
    forall k, l | 0 <= k <= l < |log| ensures log[k].term <= log[l].term {
      TermsAscend(states[i], log, Rep(states[i], a).term, k, l);
    }
  }

  /** A leader's match index for a node that is still in its term counts entries
      the two logs share, and its next index is one it can send from. */
  lemma MatchIndexSound(ids: set<NodeId>, states: seq<Cluster>, actions: seq<Action>, checked: bool,
                        i: nat, l: NodeId, f: NodeId)
    requires |ids| % 2 == 1 && IsRun(ids, states, actions, checked) && i < |states|
    requires l in states[i].members && Rep(states[i], l).role == Leader
    requires f in states[i].members && f != l
    ensures CanExchange(states[i], l, f) && f in Rep(states[i], l).matchIndex
    ensures
      var m := Rep(states[i], l).matchIndex[f];
      Rep(states[i], f).term == Rep(states[i], l).term ==>
        && m <= |Rep(states[i], l).log| && m <= |Rep(states[i], f).log|
        && Rep(states[i], f).log[..m] == Rep(states[i], l).log[..m]
  {
    hide IsRun, Shape, VotesOk, CandidatesOk, BallotsOk, LogsOk, NetOk, AcksOk, LeadersOk, ReignsOk, CountsOk;
    var s := states[i];
    RunKeeps(ids, states, actions, checked, i);
    assert MatchOk(s, Rep(s, l), f);
    LeaderAt(s, l);
    AckAt(s, f, Rep(s, l).term);
  }

  /** The voters of a quorum for index c. */
  ghost predicate AcceptedBy(s: Cluster, l: NodeId, c: nat, q: set<NodeId>)
    requires l in s.members && c <= |Rep(s, l).log|
  {
    && Majority(s.members.Keys, q)
    && forall v :: v in q ==>
         && v in s.members && Ack(s, v, Rep(s, l).term) >= c
         && Rep(s, v).term >= Rep(s, l).term
         && (Rep(s, v).term == Rep(s, l).term ==> Rep(s, l).log[..c] <= Rep(s, v).log)
  }

  /** A leader's step from s to s' that moves its commit index forward moves it to
      an index that a majority has accepted. */
  ghost predicate CountedStep(s: Cluster, s': Cluster, l: NodeId)
    requires l in s.members && l in s'.members
  {
    Rep(s', l).role == Leader && Rep(s, l).commitIndex < Rep(s', l).commitIndex ==>
      && Rep(s', l).term == Rep(s, l).term
      && Committed(s', Rep(s', l).term, Rep(s', l).commitIndex)
  }

  /** The replica r is the leader n with other bookkeeping, which does not
      overstate what was accepted. */
  ghost predicate SoundCounts(s: Cluster, n: NodeId, r: Replica) {
    && n in s.members && Rep(s, n).role == Leader && r.role == Leader
    && r.peers == Rep(s, n).peers && r.term == Rep(s, n).term && r.log == Rep(s, n).log
    && r.commitIndex == Rep(s, n).commitIndex
    && r.matchIndex.Keys <= r.peers
    && (forall f :: f in r.matchIndex ==> f in s.members && r.matchIndex[f] <= Ack(s, f, r.term))
    && |r.log| <= Ack(s, n, r.term)
  }

  lemma UpdateCounts(s: Cluster, n: NodeId, r: Replica)
    requires Shape(s) && LeadersOk(s) && ReignsOk(s) && SoundCounts(s, n, r)
    ensures CountedStep(s, SetReplica(s, n, UpdateCommit(r)), n)
  {
    hide Shape, LeadersOk, ReignsOk, CommitTo, Committable, Ackers;
    var s' := SetReplica(s, n, UpdateCommit(r));
    var c := HighestCommittable(r, |r.log|);
    UpdateCommitFacts(r);
    if c > r.commitIndex {
      UpdatedIndex(r);
      CountedIsCommitted(s, n, r, c);
      assert Ackers(s', r.term, c) == Ackers(s, r.term, c) by {
        SameAckers(s, n, UpdateCommit(r), r.term, c);
      }
    } else {
      UpdatedIndex(r);
    }
  }

  lemma UpdatedIndex(r: Replica)
    ensures UpdateCommit(r).commitIndex == HighestCommittable(r, |r.log|)
  {
    hide ApplyAll, Committable;
  }

  lemma SameAckers(s: Cluster, n: NodeId, r: Replica, t: nat, c: nat)
    requires n in s.members
    ensures Ackers(SetReplica(s, n, r), t, c) == Ackers(s, t, c)
    ensures SetReplica(s, n, r).members.Keys == s.members.Keys
  {
  }

  lemma RecountCounts(s: Cluster, n: NodeId)
    requires Base(s) && n in s.members && Rep(s, n).role == Leader
    ensures CountedStep(s, SetReplica(s, n, UpdateCommit(Rep(s, n))), n)
  {
    hide Shape, VotesOk, CandidatesOk, LeadersOk, ReignsOk, BallotsOk, Replicated, MatchesOk, CountsOk;
    hide CountedStep, UpdateCommit, SetReplica;
    CountFacts(s, n);
    UpdateCounts(s, n, Rep(s, n));
  }

  lemma ReplyCounts(s: Cluster, n: NodeId, f: NodeId, success: bool)
    requires Base(s) && n in s.members && f in s.members && n != f && Rep(s, n).role == Leader
    requires success ==> HasAccepted(s, n, f)
    ensures CountedStep(s, SetReplica(s, n, HandleAppendReply(Rep(s, n), f, success)), n)
  {
    hide VotesOk, CandidatesOk, LeadersOk, ReignsOk, BallotsOk, Replicated, MatchesOk, CountsOk, UpdateCommit;
    if success {
      var r := Rep(s, n);
      CountFacts(s, n);
      var told := r.(nextIndex := r.nextIndex[f := |r.log| + 1], matchIndex := r.matchIndex[f := |r.log|]);
      UpdateCounts(s, n, told);
    }
  }

  /** A delivery never moves the commit index of a leader. */
  lemma DeliverLeavesLeader(s: Cluster, q: AppendRequest, v: NodeId)
    requires LeadersOk(s) && NetOk(s) && Enabled(s, Deliver(q, v), true)
    requires v in DeliverStep(s, q, v).members && Rep(DeliverStep(s, q, v), v).role == Leader
    ensures Rep(DeliverStep(s, q, v), v) == Rep(s, v)
  {
    hide LeadersOk, NetOk, Merge, ApplyAll, StepOf;
    NetAt(s, q);
    DeliverElectoral(s, q, v);
  }

  lemma ExchangeCounts(s: Cluster, n: NodeId, f: NodeId, l: NodeId)
    requires Base(s) && CanExchange(s, n, f) && l in s.members && l in ExchangeStep(s, n, f).members
    ensures CountedStep(s, ExchangeStep(s, n, f), l)
  {
    hide Electoral, Replicated, Bookkept, HandleAppend, HandleAppendReply, BuildAppend, CanSend, Committed;
    var q := BuildAppend(Rep(s, n), f);
    var sent := SendStep(s, n, f);
    var delivered := DeliverStep(sent, q, f);
    SendBase(s, n, f);
    LeadersIn(s);
    LeadersIn(sent);
    ExchangeParts(s, n, f);
    if l == n {
      DeliverBase(sent, q, f);
      ReplyCounts(delivered, n, f, HandleAppend(Rep(s, f), q).1);
    } else if l == f && Rep(ExchangeStep(s, n, f), f).role == Leader {
      DeliverLeavesLeader(sent, q, f);
    }
  }

  lemma LeadersIn(s: Cluster)
    requires Base(s)
    ensures LeadersOk(s) && NetOk(s)
  {
  }

  lemma ActionCounts(s: Cluster, a: Action, checked: bool, l: NodeId)
    requires Base(s) && Enabled(s, a, checked) && l in s.members
    ensures l in Step(s, a, checked).members && CountedStep(s, Step(s, a, checked), l)
  {
    hide Base, HandleAppend, HandleAppendReply, BuildAppend, UpdateCommit, CanSend;
    hide Committed, ExchangeStep, SetAll, VoterContract, IsQuorumCount, VoterStep, CandidateStep;
    match a
    case Elect(n) =>
    case AnswerVote(ballot, v, reply, received) =>
      AnswerReplicas(s, ballot, v, reply, received, checked);
      assert VoteOnly(Rep(s, l), Rep(Step(s, a, checked), l));
    case Win(n) =>
    case Propose(n, key, value) =>
    case Send(n, f) =>
    case Deliver(q, v) =>
      LeadersIn(s);
      if l == v && Rep(DeliverStep(s, q, v), v).role == Leader {
        DeliverLeavesLeader(s, q, v);
      }
    case Exchange(n, f) =>
      ExchangeKeeps(s, n, f);
      ExchangeCounts(s, n, f, l);
    case Reply(n, f, success) => ReplyCounts(s, n, f, success);
    case Recount(n) => RecountCounts(s, n);
  }

  /** Whenever a step of a run moves the commit index of a leader, a majority has
      accepted the log up to there in the leader's term, and those still in the
      term have exactly the leader's entries. */
  lemma CommitMeaning(ids: set<NodeId>, states: seq<Cluster>, actions: seq<Action>, checked: bool,
                      i: nat, l: NodeId)
    requires |ids| % 2 == 1 && IsRun(ids, states, actions, checked) && i < |actions|
    requires l in states[i].members && l in states[i + 1].members && Rep(states[i + 1], l).role == Leader
    requires Rep(states[i], l).commitIndex < Rep(states[i + 1], l).commitIndex
    ensures
      var after := Rep(states[i + 1], l);
      && Rep(states[i], l).term == after.term && after.commitIndex <= |after.log|
      && Committed(states[i + 1], after.term, after.commitIndex)
      && AcceptedBy(states[i + 1], l, after.commitIndex, Ackers(states[i + 1], after.term, after.commitIndex))
  {
    hide Base, Step, Enabled, Committed, AcceptedBy, Ackers;
    RunKeeps(ids, states, actions, checked, i);
    RunKeeps(ids, states, actions, checked, i + 1);
    ActionCounts(states[i], actions[i], checked, l);
    CommittedIsAccepted(states[i + 1], l, Rep(states[i + 1], l).commitIndex);
  }

  lemma CommittedIsAccepted(s: Cluster, l: NodeId, c: nat)
    requires Base(s) && l in s.members && Rep(s, l).role == Leader && Committed(s, Rep(s, l).term, c)
    ensures c <= |Rep(s, l).log| && AcceptedBy(s, l, c, Ackers(s, Rep(s, l).term, c))
  {
    hide Shape, VotesOk, CandidatesOk, BallotsOk, LogsOk, NetOk, AcksOk, LeadersOk, ReignsOk, Bookkept;
    var t := Rep(s, l).term;
    LeaderAt(s, l);
    forall v | v in Ackers(s, t, c)
      ensures Rep(s, v).term >= t && (Rep(s, v).term == t ==> Rep(s, l).log[..c] <= Rep(s, v).log)
    {
      AckAt(s, v, t);
      assert Rep(s, l).log[..c] == s.reigns[t].log[..Ack(s, v, t)][..c];
    }
  }

  // ------------------------------------------------------- state machine safety

  lemma CommitOverTime(s: Cluster, s': Cluster, a: NodeId)
    requires CommitsOk(s) && a in s.members && Grows(s, s')
    ensures Ordered(Rep(s, a)) && Rep(s, a).lastApplied == Rep(s, a).commitIndex
    ensures Rep(s, a).table == Replay(Rep(s, a).log[..Rep(s, a).lastApplied])
    ensures Backed(s', Rep(s, a).term, Rep(s, a).log[..Rep(s, a).commitIndex])
  {
    hide Grows, Backed;
    CommitAt(s, a);
    BackedGrows(s, s', Rep(s, a).term, Rep(s, a).term, Rep(s, a).log[..Rep(s, a).commitIndex]);
  }

  /** Of the committed prefixes the shorter is the beginning of the longer. */
  ghost predicate PrefixesAgree(r: Replica, r': Replica) {
    && Ordered(r) && Ordered(r')
    && (r.commitIndex <= r'.commitIndex ==> r.log[..r.commitIndex] <= r'.log[..r'.commitIndex])
    && (r'.commitIndex <= r.commitIndex ==> r'.log[..r'.commitIndex] <= r.log[..r.commitIndex])
  }

  /** Any two committed prefixes, of any nodes at any times: the shorter is the
      beginning of the longer. */
  lemma CommittedPrefixesAgree(ids: set<NodeId>, states: seq<Cluster>, actions: seq<Action>,
                               i: nat, j: nat, a: NodeId, b: NodeId)
    requires |ids| % 2 == 1 && IsRun(ids, states, actions, true)
    requires i < |states| && a in states[i].members
    requires j < |states| && b in states[j].members
    ensures PrefixesAgree(Rep(states[i], a), Rep(states[j], b))
  {
    hide IsRun, Base, ReignsHold, NodesHold, VotersHold, CommitsOk, NetCommitsOk, Grows, Backed;
    var top := if i <= j then j else i;
    RunKeeps(ids, states, actions, true, i);
    RunKeeps(ids, states, actions, true, j);
    RunGrows(ids, states, actions, true, i, top);
    RunGrows(ids, states, actions, true, j, top);
    var s, r, r' := states[top], Rep(states[i], a), Rep(states[j], b);
    CommitOverTime(states[i], s, a);
    CommitOverTime(states[j], s, b);
    if r.commitIndex <= r'.commitIndex {
      BackedAgree(s, r.term, r.log[..r.commitIndex], r'.term, r'.log[..r'.commitIndex]);
    }
    if r'.commitIndex <= r.commitIndex {
      BackedAgree(s, r'.term, r'.log[..r'.commitIndex], r.term, r.log[..r.commitIndex]);
    }
  }

  /** State machine safety: logs agree up to the smaller commit index, tables are
      replays of what was applied, and equal applied indices mean equal
      tables. */
  lemma StateMachineSafety(ids: set<NodeId>, states: seq<Cluster>, actions: seq<Action>,
                           i: nat, j: nat, a: NodeId, b: NodeId, n: nat)
    requires |ids| % 2 == 1 && IsRun(ids, states, actions, true)
    requires i < |states| && a in states[i].members && n <= Rep(states[i], a).commitIndex
    requires j < |states| && b in states[j].members && n <= Rep(states[j], b).commitIndex
    ensures n <= |Rep(states[i], a).log| && n <= |Rep(states[j], b).log|
    ensures Rep(states[i], a).log[..n] == Rep(states[j], b).log[..n]
    ensures Ordered(Rep(states[i], a))
    ensures Rep(states[i], a).table == Replay(Rep(states[i], a).log[..Rep(states[i], a).lastApplied])
    ensures Rep(states[i], a).lastApplied == Rep(states[j], b).lastApplied ==>
              Rep(states[i], a).table == Rep(states[j], b).table
    ensures Rep(states[i], a).commitIndex == Rep(states[j], b).commitIndex ==>
              Rep(states[i], a).table == Rep(states[j], b).table
  {
    hide IsRun, Base, ReignsHold, NodesHold, VotersHold, CommitsOk, NetCommitsOk, Grows, Backed, Replay;
    CommittedPrefixesAgree(ids, states, actions, i, j, a, b);
    RunKeeps(ids, states, actions, true, i);
    RunKeeps(ids, states, actions, true, j);
    GrowsReflexive(states[i]);
    GrowsReflexive(states[j]);
    CommitOverTime(states[i], states[i], a);
    CommitOverTime(states[j], states[j], b);
    var r, r' := Rep(states[i], a), Rep(states[j], b);
    PrefixesEqual(r.log, r.commitIndex, r'.log, r'.commitIndex, n);
    if r.lastApplied == r'.lastApplied {
      PrefixesEqual(r.log, r.commitIndex, r'.log, r'.commitIndex, r.lastApplied);
    }
  }

  /** Nobody falls behind its own commit index: in every state of every run a node
      has applied exactly what it has committed, and its table is what the
      committed entries, written in order, make of an empty one. */
  lemma AppliedIsCommitted(ids: set<NodeId>, states: seq<Cluster>, actions: seq<Action>, i: nat, x: NodeId)
    requires |ids| % 2 == 1 && IsRun(ids, states, actions, true) && i < |states| && x in states[i].members
    ensures
      var r := Rep(states[i], x);
      && r.lastApplied == r.commitIndex <= |r.log|
      && r.table == Replay(r.log[..r.commitIndex]) && Writes(map[], r.table, r.log[..r.commitIndex])
  {
    hide IsRun, Base, ReignsHold, NodesHold, VotersHold, CommitsOk, NetCommitsOk, Backed, ApplyAll, Writes;
    RunKeeps(ids, states, actions, true, i);
    CommitAt(states[i], x);
    ApplyAllWrites(map[], Rep(states[i], x).log[..Rep(states[i], x).commitIndex]);
  }

  lemma PrefixesEqual(a: Log, m: nat, b: Log, k: nat, n: nat)
    requires n <= m <= |a| && n <= k <= |b|
    requires m <= k ==> a[..m] <= b[..k]
    requires k <= m ==> b[..k] <= a[..m]
    ensures a[..n] == b[..n]
  {
    assert a[..n] == a[..m][..n];
    assert b[..n] == b[..k][..n];
  }

  /** A lock found at the end of a run was there when a later leader won: one of
      that leader's voters accepted the entries before it voted. */
  lemma LockedEarlier(s: Cluster, s': Cluster, t: nat, c: nat, u: nat)
    requires Base(s) && Grows(s, s') && |s'.members| % 2 == 1
    requires Locked(s', t, c) && u in s.reigns && t < u
    ensures Locked(s, t, c) && s.reigns[t].log[..c] == s'.reigns[t].log[..c]
  {
    hide Shape, VotesOk, CandidatesOk, BallotsOk, LeadersOk, ReignsOk, LogsOk, NetOk, AcksOk, Bookkept;
    hide MemberGrows, ReignsGrow;
    var l := s.reigns[u].leader;
    ReignAt(s, u);
    ChoosersShrink(s, s', t, c);
    var v := MajoritiesMeet(s.members.Keys, Voters(s, u, l), Choosers(s', t, c));
    VoteBelow(s, v, u, l);
    AckAt(s, v, t);
    LockedBefore(s, s', t, c);
  }

  /** What a node has committed by time i is in the log of a leader at time j. */
  lemma BackedInLeader(s: Cluster, s': Cluster, term: nat, prefix: Log, m: NodeId)
    requires Base(s) && ReignsHold(s) && Grows(s, s') && |s'.members| % 2 == 1
    requires Backed(s', term, prefix) && m in s.members && Rep(s, m).role == Leader && term < Rep(s, m).term
    ensures prefix <= Rep(s, m).log
  {
    hide Shape, VotesOk, CandidatesOk, BallotsOk, LeadersOk, ReignsOk, Replicated, Bookkept, ReignsHold, Grows;
    hide Committed, Locked;
    LeaderAt(s, m);
    if prefix != [] {
      var t: nat, c: nat :| BackedBy(s', term, prefix, t, c);
      CommittedIsLocked(s', t, c);
      LockedEarlier(s, s', t, c, Rep(s, m).term);
      LockFacts(s, t, c);
      LockFacts(s', t, c);
      assert prefix == s'.reigns[t].log[..c][..|prefix|];
      ReignHolds(s, t, c, Rep(s, m).term);
    }
  }

  /** Leader completeness: what any node has committed is in the log of every
      leader of a higher term, whether it leads later or led before; and in the
      log of every later leader of the same term. */
  lemma LeaderCompleteness(ids: set<NodeId>, states: seq<Cluster>, actions: seq<Action>,
                           i: nat, j: nat, x: NodeId, m: NodeId)
    requires |ids| % 2 == 1 && IsRun(ids, states, actions, true) && i < |states| && j < |states|
    requires x in states[i].members
    requires m in states[j].members && Rep(states[j], m).role == Leader
    requires Rep(states[i], x).term < Rep(states[j], m).term
          || (Rep(states[i], x).term == Rep(states[j], m).term && i <= j)
    ensures Ordered(Rep(states[i], x))
    ensures Rep(states[i], x).log[..Rep(states[i], x).commitIndex] <= Rep(states[j], m).log
  {
    hide IsRun, Electoral, Replicated, Bookkept, ReignsHold, NodesHold, VotersHold, CommitsOk, NetCommitsOk, Grows, Backed;
    var s, s' := states[i], states[j];
    RunKeeps(ids, states, actions, true, i);
    RunKeeps(ids, states, actions, true, j);
    OddMembers(s);
    GrowsReflexive(s);
    CommitOverTime(s, s, x);
    var term, prefix := Rep(s, x).term, Rep(s, x).log[..Rep(s, x).commitIndex];
    if i <= j {
      RunGrows(ids, states, actions, true, i, j);
      CommitOverTime(s, s', x);
      LeaderReign(s', m);
      BackedInReign(s', term, prefix, Rep(s', m).term);
    } else {
      RunGrows(ids, states, actions, true, j, i);
      BackedInLeader(s', s, term, prefix, m);
    }
  }

  lemma OddMembers(s: Cluster)
    requires Base(s)
    ensures |s.members| % 2 == 1
  {
  }

  lemma LeaderReign(s: Cluster, m: NodeId)
    requires Base(s) && m in s.members && Rep(s, m).role == Leader
    ensures Rep(s, m).term in s.reigns && s.reigns[Rep(s, m).term].log == Rep(s, m).log
  {
    hide VotesOk, CandidatesOk, BallotsOk, Replicated, Bookkept, LeadersOk, ReignsOk;
    LeaderAt(s, m);
  }
}

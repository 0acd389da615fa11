/** When elections are safe: exactly for an even number of peers, and only with
    the candidate still in its round. */
module Elections {
  import opened Types
  import opened Replicas
  import opened Quorums
  import opened Clusters
  import opened BaseInvariant
  import opened BaseSteps
  import opened Steps
  import opened Safety
  import opened Campaigns

  /** In no run do two nodes lead the same term. */
  ghost predicate OneLeaderPerTerm(ids: set<NodeId>, checked: bool) {
    forall states: seq<Cluster>, actions: seq<Action>, i: nat, j: nat, a: NodeId, b: NodeId, t: nat ::
      && IsRun(ids, states, actions, checked)
      && i < |states| && j < |states| && LeaderAtTime(states[i], a, t) && LeaderAtTime(states[j], b, t)
      ==> a == b
  }

  // ------------------------------------------------- two candidates, two halves

  lemma InitFacts(ids: set<NodeId>, n: NodeId)
    requires n in ids
    ensures Placed(Init(ids), ids, n) && Rep(Init(ids), n) == Fresh(n, ids - {n})
    ensures Init(ids).members[n].voted == map[]
  {
  }

  /** One of two disjoint quorums elects a in term 1, the other, untouched by
      that, elects b. */
  lemma ElectFirst(ids: set<NodeId>, a: NodeId, voters: set<NodeId>, checked: bool) returns (s: Cluster)
    requires voters <= ids && a in ids && a !in voters && Majority(ids, voters + {a})
    ensures Reaches(Init(ids), s, checked) && NewLeader(s, ids, a, 1, []) && OthersSame(Init(ids), s, voters + {a})
    ensures forall v :: v in voters ==> Voted(Init(ids), s, v, 1, a)
  {
    hide Reaches, Majority, NewLeader, Voted, OthersSame;
    ReachesSelf(Init(ids), checked);
    InitFacts(ids, a);
    forall v | v in voters ensures MayVote(Init(ids), v, 1, [], checked) {
      InitFacts(ids, v);
    }
    s := ElectBy(Init(ids), ids, Init(ids), a, 1, [], voters, checked);
  }

  /** With an odd number of peers two disjoint halves are both large enough, and
      two candidates of the same term win. */
  lemma SplitElection(ids: set<NodeId>, checked: bool)
    requires ids != {} && |ids| % 2 == 0
    ensures !OneLeaderPerTerm(ids, checked)
  {
    hide Reaches, Majority, OneLeaderPerTerm;
    var va, vb := HalvesAreMajorities(ids);
    var a, b := TwoFrom(ids, va, vb);
    assert va - {a} + {a} == va && vb - {b} + {b} == vb;
    var s1 := ElectFirst(ids, a, va - {a}, checked);
    forall v | v in vb ensures MayVote(s1, v, 1, [], checked) && Placed(s1, ids, v) && Rep(s1, v) == Fresh(v, ids - {v}) {
      InitFacts(ids, v);
    }
    var s := ElectBy(Init(ids), ids, s1, b, 1, [], vb - {b}, checked);
    TwoLeaders(ids, s, checked, a, b);
  }

  lemma TwoFrom(ids: set<NodeId>, va: set<NodeId>, vb: set<NodeId>) returns (a: NodeId, b: NodeId)
    requires Majority(ids, va) && Majority(ids, vb) && va !! vb
    ensures a in va && b in vb && a != b
  {
    a :| a in va;
    b :| b in vb;
  }

  lemma TwoLeaders(ids: set<NodeId>, s: Cluster, checked: bool, a: NodeId, b: NodeId)
    requires Reaches(Init(ids), s, checked) && LeaderAtTime(s, a, 1) && LeaderAtTime(s, b, 1) && a != b
    ensures !OneLeaderPerTerm(ids, checked)
  {
    hide Step, Enabled, Init, LeaderAtTime;
    var states, actions := RunTo(ids, s, checked);
    var last := |states| - 1;
    assert LeaderAtTime(states[last], a, 1) && LeaderAtTime(states[last], b, 1);
  }

  /** Elections are safe in every run exactly when the number of peers is even,
      whether or not the voters compare logs. */
  lemma ElectionSafeIffPeersEven(ids: set<NodeId>, peers: nat, checked: bool)
    requires |ids| == peers + 1
    ensures OneLeaderPerTerm(ids, checked) <==> peers % 2 == 0
  {
    hide IsRun, LeaderAtTime;
    if peers % 2 == 0 {
      forall states: seq<Cluster>, actions: seq<Action>, i: nat, j: nat, a: NodeId, b: NodeId, t: nat |
        && IsRun(ids, states, actions, checked)
        && i < |states| && j < |states| && LeaderAtTime(states[i], a, t) && LeaderAtTime(states[j], b, t)
        ensures a == b
      {
        ElectionSafety(ids, states, actions, checked, i, j, a, b, t);
      }
    } else {
      SplitElection(ids, checked);
    }
  }

  // --------------------------------------------------- a round that ends too late

  /** The test the program makes when all replies of a round are in. */
  predicate CountPasses(s: Cluster, n: NodeId)
    requires n in s.members
  {
    IsQuorumCount(Rep(s, n).peers, |s.members[n].granted| + 1)
  }

  /** While the node is still a candidate in its round, the test is enough: its
      term has no leader. */
  lemma CountSufficesInRound(ids: set<NodeId>, states: seq<Cluster>, actions: seq<Action>, checked: bool,
                             i: nat, n: NodeId)
    requires |ids| % 2 == 1 && IsRun(ids, states, actions, checked) && i < |states|
    requires n in states[i].members && Rep(states[i], n).role == Candidate && CountPasses(states[i], n)
    ensures Rep(states[i], n).term !in states[i].reigns
    ensures forall m :: !LeaderAtTime(states[i], m, Rep(states[i], n).term)
  {
    hide IsRun, Shape, VotesOk, CandidatesOk, ReignsOk, BallotsOk, Replicated, Bookkept;
    RunKeeps(ids, states, actions, checked, i);
    WinnerIsFirst(states[i], n);
  }

  /** Without that, every cluster of two or more nodes has a run to two leaders
      of term 2: a collects all votes of term 1, then votes for c in term 2, and
      c wins before a counts. */
  lemma LateRoundElectsSecondLeader(ids: set<NodeId>, checked: bool) returns (s: Cluster, a: NodeId, c: NodeId)
    requires |ids| > 1
    ensures a != c && Reaches(Init(ids), s, checked) && a in s.members && CountPasses(s, a)
    ensures Rep(s, a).role == Follower && LeaderAtTime(s, c, 2)
    ensures LeaderAtTime(WinStep(s, a), a, 2) && LeaderAtTime(WinStep(s, a), c, 2)
  {
    hide Reaches, Majority, NewLeader, OneVote, MayVote, Voted, OthersSame, CountPasses, LeaderAtTime, WinStep, Init;
    a, c := TwoOf(ids);
    var s1 := AllVotes(ids, a, checked);
    forall v | v in ids ensures MayVote(s1, v, 2, [], checked) {
      MayVoteAgain(s1, ids, v, checked);
    }
    MayVoteAgain(s1, ids, c, checked);
    assert ids - {c} + {c} == ids;
    s := ElectBy(Init(ids), ids, s1, c, 2, [], ids - {c}, checked);
    SecondWin(ids, s1, s, a, c);
  }

  lemma MayVoteAgain(s: Cluster, ids: set<NodeId>, v: NodeId, checked: bool)
    requires OneVote(s, ids, v)
    ensures MayVote(s, v, 2, [], checked) && HasLog(s, ids, v, []) && Rep(s, v).term == 1
  {
  }

  lemma SecondWin(ids: set<NodeId>, s1: Cluster, s: Cluster, a: NodeId, c: NodeId)
    requires a != c && Majority(ids, ids) && ids - {a} + {a} == ids
    requires OneVote(s1, ids, a) && s1.members[a].granted == ids - {a}
    requires Voted(s1, s, a, 2, c) && NewLeader(s, ids, c, 2, [])
    ensures a in s.members && CountPasses(s, a) && Rep(s, a).role == Follower && LeaderAtTime(s, c, 2)
    ensures LeaderAtTime(WinStep(s, a), a, 2) && LeaderAtTime(WinStep(s, a), c, 2)
  {
    hide WinStep, Majority;
    QuorumCount(ids, ids - {a}, a);
    BothLead(s, a, c, 2);
  }

  lemma TwoOf(ids: set<NodeId>) returns (a: NodeId, c: NodeId)
    requires |ids| > 1
    ensures a in ids && c in ids && a != c && Majority(ids, ids)
    ensures ids - {a} + {a} == ids
  {
    a :| a in ids;
    assert |ids - {a}| == |ids| - 1;
    c :| c in ids - {a};
  }

  /** The node has voted in term 1 and its log is empty. */
  ghost predicate OneVote(s: Cluster, ids: set<NodeId>, v: NodeId) {
    HasLog(s, ids, v, []) && Rep(s, v).term == 1 && s.members[v].voted.Keys == {1}
  }

  lemma AllVotes(ids: set<NodeId>, a: NodeId, checked: bool) returns (s: Cluster)
    requires a in ids
    ensures Reaches(Init(ids), s, checked) && forall v :: v in ids ==> OneVote(s, ids, v)
    ensures a in s.members && s.members[a].granted == ids - {a}
  {
    hide Reaches, Init, OthersSame;
    ReachesSelf(Init(ids), checked);
    InitFacts(ids, a);
    var s1 := Campaign(Init(ids), ids, Init(ids), a, [], checked);
    forall v | v in ids - {a} ensures MayVote(s1, v, 1, [], checked) {
      InitFacts(ids, v);
      StillMayVote(Init(ids), s1, v, {a}, 1, [], checked);
    }
    s := GiveVotes(Init(ids), ids, s1, a, 1, [], {}, ids - {a}, checked);
    forall v | v in ids - {a} ensures OneVote(s, ids, v) {
      InitFacts(ids, v);
      VoteBefore(Init(ids), s1, s, v, 1, a, {a});
    }
  }

  /** A node that becomes leader in the term of a leader does not unseat it. */
  lemma BothLead(s: Cluster, n: NodeId, l: NodeId, t: nat)
    requires n in s.members && n != l && Rep(s, n).term == t && LeaderAtTime(s, l, t)
    ensures LeaderAtTime(WinStep(s, n), n, t) && LeaderAtTime(WinStep(s, n), l, t)
  {
    hide SetAll;
  }
}

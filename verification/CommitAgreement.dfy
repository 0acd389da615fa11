/** When committed prefixes agree in all runs: exactly for an odd number of nodes
    whose voters compare logs. */
module CommitAgreement {
  import opened Types
  import opened Replicas
  import opened Quorums
  import opened Clusters
  import opened BaseInvariant
  import opened Steps
  import opened Safety
  import opened Campaigns
  import opened Elections

  /** In no run do two nodes, or one node at two times, commit different
      entries. */
  ghost predicate CommitsAgree(ids: set<NodeId>, checked: bool) {
    forall states: seq<Cluster>, actions: seq<Action>, i: nat, j: nat, a: NodeId, b: NodeId ::
      && IsRun(ids, states, actions, checked)
      && i < |states| && j < |states| && a in states[i].members && b in states[j].members
      ==> PrefixesAgree(Rep(states[i], a), Rep(states[j], b))
  }

  lemma TwoCommits(ids: set<NodeId>, s: Cluster, checked: bool, a: NodeId, b: NodeId, e: LogEntry, e': LogEntry)
    requires Reaches(Init(ids), s, checked) && HasCommitted(s, a, [e]) && HasCommitted(s, b, [e']) && e != e'
    ensures !CommitsAgree(ids, checked)
  {
    hide Step, Enabled, Init;
    var states, actions := RunTo(ids, s, checked);
    var last := |states| - 1;
    assert !PrefixesAgree(Rep(states[last], a), Rep(states[last], b)) by {
      assert Rep(s, a).log[..1][0] != Rep(s, b).log[..1][0];
    }
  }

  // --------------------------------------------------- an even number of nodes

  /** One of two disjoint quorums elects a in term 1 and commits x with it. */
  lemma CommitFirst(ids: set<NodeId>, a: NodeId, va: set<NodeId>, checked: bool) returns (s: Cluster)
    requires Majority(ids, va) && a in va
    ensures Reaches(Init(ids), s, checked) && HasCommitted(s, a, [LogEntry(1, "k", "x")]) && OthersSame(Init(ids), s, va)
    ensures forall v :: v in va && v != a ==>
              v in ids && v in s.members && Rep(s, v).term == 1 && s.members[v].voted == map[1 := a]
  {
    hide Reaches, Majority, Init, NewLeader;
    MajorityInside(ids, va);
    assert va - {a} + {a} == va;
    var s1 := ElectFirst(ids, a, va - {a}, checked);
    NewLeaderFacts(s1, ids, a, 1, []);
    s := CommitBy(Init(ids), ids, s1, a, [], LogEntry(1, "k", "x"), va - {a}, checked);
    forall v | v in va && v != a
      ensures v in s.members && Rep(s, v).term == 1 && s.members[v].voted == map[1 := a]
    {
      assert Followed(s1, s, v, 1) && Voted(Init(ids), s1, v, 1, a);
      InitFacts(ids, v);
    }
  }

  lemma MajorityInside(ids: set<NodeId>, q: set<NodeId>)
    requires Majority(ids, q)
    ensures q <= ids
  {
  }

  /** A node the first quorum left alone is as it was. */
  lemma LeftAlone(ids: set<NodeId>, s: Cluster, va: set<NodeId>, v: NodeId)
    requires OthersSame(Init(ids), s, va) && v in ids && v !in va
    ensures Placed(s, ids, v) && Rep(s, v) == Fresh(v, ids - {v}) && s.members[v].voted == map[]
  {
    InitFacts(ids, v);
  }

  /** Two halves of an even number of nodes each elect a leader and commit. */
  lemma HalvesCommit(ids: set<NodeId>, checked: bool)
    requires ids != {} && |ids| % 2 == 0
    ensures !CommitsAgree(ids, checked)
  {
    hide Reaches, Majority, CommitsAgree, NewLeader, Init, Placed;
    var va, vb := HalvesAreMajorities(ids);
    var a, b := TwoFrom(ids, va, vb);
    var s := CommitFirst(ids, a, va, checked);
    forall v | v in vb ensures v in s.members && MayVote(s, v, 1, [], checked) {
      LeftAlone(ids, s, va, v);
    }
    LeftAlone(ids, s, va, b);
    MajorityInside(ids, vb);
    assert vb - {b} + {b} == vb;
    var s' := CommitNext(Init(ids), ids, s, b, LogEntry(1, "k", "y"), vb - {b}, checked);
    assert a !in vb - {b} + {b};
    TwoCommits(ids, s', checked, a, b, LogEntry(1, "k", "x"), LogEntry(1, "k", "y"));
  }

  // --------------------------------------------- voters that do not compare logs

  /** Two quorums that share one node, each with a node of its own. */
  lemma OverlappingQuorums(ids: set<NodeId>)
    returns (va: set<NodeId>, vc: set<NodeId>, a: NodeId, b: NodeId, c: NodeId)
    requires |ids| % 2 == 1 && |ids| > 1
    ensures Majority(ids, va) && Majority(ids, vc) && va * vc == {b}
    ensures a in va && a !in vc && c in vc && c !in va
  {
    va := SubsetOfSize(ids, |ids| / 2 + 1);
    a :| a in va;
    assert |va - {a}| == |va| - 1 >= 1;
    b :| b in va - {a};
    var rest := ids - va;
    DisjointSizes(va, rest);
    assert va + rest == ids;
    c :| c in rest;
    vc := rest + {b};
    DisjointSizes(rest, {b});
  }

  /** a commits x in term 1 with its quorum. Then b, which has x, and the nodes
      that were left alone elect c in term 2, and c commits y. */
  lemma UncheckedVotersLoseCommits(ids: set<NodeId>)
    requires |ids| % 2 == 1 && |ids| > 1
    ensures !CommitsAgree(ids, false)
  {
    hide Reaches, Majority, CommitsAgree, NewLeader, Init, Placed;
    var va, vc, a, b, c := OverlappingQuorums(ids);
    MajorityInside(ids, vc);
    var s := CommitFirst(ids, a, va, false);
    LeftAlone(ids, s, va, c);
    var s1 := Campaign(Init(ids), ids, s, c, [], false);
    forall v | v in vc - {c} ensures MayVote(s1, v, 2, [], false) {
      if v != b {
        assert v in va ==> v in va * vc;
        LeftAlone(ids, s, va, v);
      }
    }
    CampaignFacts(s1, ids, c, 1);
    assert vc - {c} + {c} == vc;
    var s2 := CommitNext(Init(ids), ids, s1, c, LogEntry(2, "k", "y"), vc - {c}, false);
    assert s2.members[a] == s.members[a];
    TwoCommits(ids, s2, false, a, c, LogEntry(1, "k", "x"), LogEntry(2, "k", "y"));
  }

  lemma CampaignFacts(s: Cluster, ids: set<NodeId>, c: NodeId, t: nat)
    requires Campaigning(s, ids, c, t, [], {})
    ensures HasLog(s, ids, c, []) && Rep(s, c).term == t
  {
  }

  // ------------------------------------------------------------------- one node

  /** A node on its own asks nobody for a vote. */
  lemma {:induction false} AloneIsChecked(ids: set<NodeId>, states: seq<Cluster>, actions: seq<Action>)
    requires |ids| == 1 && IsRun(ids, states, actions, false)
    ensures IsRun(ids, states, actions, true)
  {
    hide Grows, Init;
    forall i | 0 <= i < |actions|
      ensures Enabled(states[i], actions[i], true) && states[i + 1] == Step(states[i], actions[i], true)
    {
      RunGrows(ids, states, actions, false, 0, i);
      AloneEnabled(states[0], states[i], actions[i], ids);
    }
  }

  lemma AloneEnabled(s0: Cluster, s: Cluster, a: Action, ids: set<NodeId>)
    requires |ids| == 1 && s0 == Init(ids) && Grows(s0, s) && Enabled(s, a, false)
    ensures Enabled(s, a, true) && Step(s, a, true) == Step(s, a, false)
  {
    hide MemberGrows, ReignsGrow;
    assert s.members.Keys == ids;
    forall m, n | m in ids && n in ids ensures m == n {
      SubsetCardinality({m, n}, ids);
    }
  }

  // ----------------------------------------------------------- when commits agree

  /** Committed prefixes agree in every run exactly when the number of nodes is
      odd and, unless there is only one, the voters compare logs. */
  lemma CommitsAgreeIff(ids: set<NodeId>, checked: bool)
    requires ids != {}
    ensures CommitsAgree(ids, checked) <==> |ids| % 2 == 1 && (checked || |ids| == 1)
  {
    hide IsRun, PrefixesAgree;
    if |ids| % 2 == 0 {
      HalvesCommit(ids, checked);
    } else if !checked && |ids| != 1 {
      UncheckedVotersLoseCommits(ids);
    } else {
      forall states: seq<Cluster>, actions: seq<Action>, i: nat, j: nat, a: NodeId, b: NodeId |
        && IsRun(ids, states, actions, checked)
        && i < |states| && j < |states| && a in states[i].members && b in states[j].members
        ensures PrefixesAgree(Rep(states[i], a), Rep(states[j], b))
      {
        if !checked {
          AloneIsChecked(ids, states, actions);
        }
        CommittedPrefixesAgree(ids, states, actions, i, j, a, b);
      }
    }
  }
}

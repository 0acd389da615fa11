/** A success that is processed some time after the follower accepted the request.
    The leader notes its log as it is by then, not as it was sent. */
module LateReplies {
  import opened Types
  import opened Logs
  import opened Replicas
  import opened Quorums
  import opened Clusters
  import opened BaseInvariant
  import opened BaseSteps
  import opened Steps
  import opened Safety
  import opened Delivery
  import opened Campaigns
  import opened Elections

  /** The cluster after n has processed a success of f, whatever f has accepted. */
  function AfterSuccess(s: Cluster, n: NodeId, f: NodeId): Cluster
    requires n in s.members
  {
    SetReplica(s, n, HandleAppendReply(Rep(s, n), f, true))
  }

  // -------------------------------------------------------- when it does no harm

  /** Processing a success keeps the match indices within what the peers have
      accepted exactly when f has accepted all that is in the log by now; it then
      keeps the whole invariant. */
  lemma LateReplyExact(ids: set<NodeId>, states: seq<Cluster>, actions: seq<Action>, checked: bool,
                       i: nat, n: NodeId, f: NodeId)
    requires |ids| % 2 == 1 && IsRun(ids, states, actions, checked) && i < |states|
    requires n in states[i].members && f in states[i].members && n != f && Rep(states[i], n).role == Leader
    ensures MatchesOk(AfterSuccess(states[i], n, f)) <==> HasAccepted(states[i], n, f)
    ensures HasAccepted(states[i], n, f) ==> Base(AfterSuccess(states[i], n, f))
  {
    hide IsRun, Electoral, Replicated, CountsOk, UpdateCommit;
    var s := states[i];
    RunKeeps(ids, states, actions, checked, i);
    if HasAccepted(s, n, f) {
      ReplyBase(s, n, f, true);
    } else {
      var r := Rep(s, n);
      UpdateCommitFacts(r.(nextIndex := r.nextIndex[f := |r.log| + 1], matchIndex := r.matchIndex[f := |r.log|]));
      assert !MatchOk(AfterSuccess(s, n, f), Rep(AfterSuccess(s, n, f), n), f);
    }
  }

  lemma AcceptedAck(s: Cluster, a: Action, checked: bool, q: AppendRequest, f: NodeId)
    requires Enabled(s, a, checked) && Accepted(s, a, q, f)
    ensures f in Step(s, a, checked).members && End(q) <= Ack(Step(s, a, checked), f, q.term)
  {
    hide HandleAppend, HandleAppendReply, BuildAppend, CanSend;
  }

  /** A request built at i and accepted at d, whose success is processed at j by
      the same leader: the match index it notes is what the request carried
      exactly when nothing was appended since, and then the reply may be
      processed. If f has accepted nothing beyond the request it may be
      processed only then. */
  lemma LateReplySound(ids: set<NodeId>, states: seq<Cluster>, actions: seq<Action>, checked: bool,
                       i: nat, d: nat, j: nat, q: AppendRequest, n: NodeId, f: NodeId)
    requires |ids| % 2 == 1 && IsRun(ids, states, actions, checked) && i <= d < j < |states|
    requires Builds(states[i], actions[i], q) && n == actions[i].node && f != n
    requires Accepted(states[d], actions[d], q, f)
    requires LeaderAtTime(states[j], n, q.term)
    ensures f in states[j].members && Rep(states[i], n).log <= Rep(states[j], n).log
    ensures HandleAppendReply(Rep(states[j], n), f, true).matchIndex[f] == End(q) <==>
            Rep(states[j], n).log == Rep(states[i], n).log
    ensures Rep(states[j], n).log == Rep(states[i], n).log ==> Enabled(states[j], Reply(n, f, true), checked)
    ensures Ack(states[j], f, q.term) == End(q) ==>
              (Enabled(states[j], Reply(n, f, true), checked) <==> Rep(states[j], n).log == Rep(states[i], n).log)
  {
    hide Step, Init, Builds, Accepted, HandleAppendReply;
    SameLeaderGrows(ids, states, actions, checked, i, j, q);
    AckLater(ids, states, actions, checked, d, j, q, f);
    NotedIndex(Rep(states[j], n), f);
  }

  lemma AckLater(ids: set<NodeId>, states: seq<Cluster>, actions: seq<Action>, checked: bool,
                 d: nat, j: nat, q: AppendRequest, f: NodeId)
    requires |ids| % 2 == 1 && IsRun(ids, states, actions, checked) && d < j < |states|
    requires Accepted(states[d], actions[d], q, f)
    ensures f in states[j].members && End(q) <= Ack(states[j], f, q.term)
  {
    hide Step, Enabled, Init, Accepted, ReignsGrow;
    AcceptedAck(states[d], actions[d], checked, q, f);
    RunGrows(ids, states, actions, checked, d + 1, j);
    assert MemberGrows(states[d + 1].members[f], states[j].members[f]);
  }

  lemma NotedIndex(r: Replica, f: NodeId)
    ensures f in HandleAppendReply(r, f, true).matchIndex
    ensures HandleAppendReply(r, f, true).matchIndex[f] == |r.log|
  {
    hide UpdateCommit;
    UpdateCommitFacts(r.(nextIndex := r.nextIndex[f := |r.log| + 1], matchIndex := r.matchIndex[f := |r.log|]));
  }

  /** While it leads, the builder of a request only appends. */
  lemma SameLeaderGrows(ids: set<NodeId>, states: seq<Cluster>, actions: seq<Action>, checked: bool,
                        i: nat, j: nat, q: AppendRequest)
    requires |ids| % 2 == 1 && IsRun(ids, states, actions, checked) && i <= j < |states| && i < |actions|
    requires Builds(states[i], actions[i], q) && LeaderAtTime(states[j], actions[i].node, q.term)
    ensures actions[i].node in states[i].members && Rep(states[i], actions[i].node).term == q.term
    ensures End(q) == |Rep(states[i], actions[i].node).log|
    ensures Rep(states[i], actions[i].node).log <= Rep(states[j], actions[i].node).log
  {
    hide IsRun, BuildAppend, CanSend, MemberGrows, VotesOk, CandidatesOk, BallotsOk, LeadersOk, ReignsOk, Replicated, Bookkept;
    RunKeeps(ids, states, actions, checked, i);
    RunKeeps(ids, states, actions, checked, j);
    RunGrows(ids, states, actions, checked, i, j);
    BuiltFacts(states[i], actions[i], q);
    LeaderAt(states[j], actions[i].node);
  }

  // ------------------------------------------------------------ when it does harm

  /** In s1 the leader a sends a request to f, which accepts it at once. In s the
      leader still leads, and the reply has not been processed. */
  ghost predicate Pending(s1: Cluster, s: Cluster, a: NodeId, f: NodeId, checked: bool) {
    && Enabled(s1, Send(a, f), checked)
    && var q, s2 := BuildAppend(Rep(s1, a), f), SendStep(s1, a, f);
       && Enabled(s2, Deliver(q, f), checked) && Accepted(s2, Deliver(q, f), q, f)
       && Reaches(DeliverStep(s2, q, f), s, checked)
       && LeaderAtTime(s, a, q.term)
  }

  /** A first request carries nothing, and every peer of the term accepts it. */
  lemma FirstHeartbeat(ids: set<NodeId>, s1: Cluster, a: NodeId, t: nat, f: NodeId, checked: bool)
    returns (s3: Cluster)
    requires Reaches(Init(ids), s1, checked) && NewLeader(s1, ids, a, t, [])
    requires f in ids && f != a && OneVote(s1, ids, f) && t == 1
    ensures Enabled(s1, Send(a, f), checked)
    ensures
      var q, s2 := BuildAppend(Rep(s1, a), f), SendStep(s1, a, f);
      && q.term == t && Enabled(s2, Deliver(q, f), checked) && Accepted(s2, Deliver(q, f), q, f)
      && s3 == DeliverStep(s2, q, f)
    ensures Reaches(Init(ids), s3, checked) && NewLeader(s3, ids, a, t, [])
    ensures OthersSame(s1, s3, {f}) && OneVote(s3, ids, f)
  {
    hide Reaches, ApplyAll;
    ReachesStep(Init(ids), s1, Send(a, f), checked);
    var s2 := Step(s1, Send(a, f), checked);
    var q := BuildAppend(Rep(s1, a), f);
    ReachesStep(Init(ids), s2, Deliver(q, f), checked);
    s3 := Step(s2, Deliver(q, f), checked);
  }

  /** The late success of f completes the count. */
  lemma LateCount(ids: set<NodeId>, s: Cluster, a: NodeId, e: LogEntry, done: set<NodeId>, f: NodeId)
    requires Collecting(s, ids, a, [], e, done, {}) && f in ids && f != a && f !in done
    requires |done| + 2 > (|ids| - 1) / 2
    ensures OthersSame(s, AfterSuccess(s, a, f), {a}) && HasCommitted(AfterSuccess(s, a, f), a, [e])
  {
    hide UpdateCommit;
    var r := Rep(s, a);
    assert |ids - {a}| == |ids| - 1;
    CollectedCommits(r.(nextIndex := r.nextIndex[f := |r.log| + 1], matchIndex := r.matchIndex[f := |r.log|]), done + {f});
  }

  /** The nodes besides a: some that get the entry, a majority that does not. */
  lemma OneShort(ids: set<NodeId>, a: NodeId) returns (done: set<NodeId>, rest: set<NodeId>, f: NodeId, b: NodeId)
    requires |ids| % 2 == 1 && |ids| > 1 && a in ids
    ensures done + rest + {a} == ids && done !! rest && a !in done && a !in rest
    ensures Majority(ids, rest) && Majority(ids, ids) && |done| + 2 > (|ids| - 1) / 2
    ensures f in rest && b in rest && f != b
  {
    assert |ids - {a}| == |ids| - 1;
    done := SubsetOfSize(ids - {a}, |ids| / 2 - 1);
    rest := ids - {a} - done;
    DisjointSizes(done, rest);
    assert done + rest == ids - {a};
    f :| f in rest;
    assert |rest - {f}| == |rest| - 1 >= 1;
    b :| b in rest - {f};
  }

  /** a leads term 1 with everybody's vote, and f has accepted its first request. */
  lemma LeadAndSend(ids: set<NodeId>, a: NodeId, f: NodeId, checked: bool) returns (s1: Cluster, s3: Cluster)
    requires a in ids && f in ids && f != a && Majority(ids, ids)
    ensures Reaches(Init(ids), s1, checked) && Enabled(s1, Send(a, f), checked)
    ensures
      var q, s2 := BuildAppend(Rep(s1, a), f), SendStep(s1, a, f);
      && q.term == 1 && Enabled(s2, Deliver(q, f), checked) && Accepted(s2, Deliver(q, f), q, f)
      && s3 == DeliverStep(s2, q, f)
    ensures NewLeader(s3, ids, a, 1, [])
    ensures forall v :: v in ids && v != a ==> OneVote(s3, ids, v)
  {
    hide Reaches, NewLeader, Majority, Init, Enabled, BuildAppend, SendStep, DeliverStep, Accepted;
    assert ids - {a} + {a} == ids;
    s1 := ElectFirst(ids, a, ids - {a}, checked);
    NewLeaderFacts(s1, ids, a, 1, []);
    forall v | v in ids && v != a ensures OneVote(s1, ids, v) {
      InitFacts(ids, v);
      assert Voted(Init(ids), s1, v, 1, a);
    }
    s3 := FirstHeartbeat(ids, s1, a, 1, f, checked);
  }

  /** a proposes x, the nodes in `done` accept it, and the late success of f
      completes the count. */
  lemma CountTooMany(ids: set<NodeId>, s3: Cluster, a: NodeId, done: set<NodeId>, f: NodeId, checked: bool)
    returns (s: Cluster)
    requires NewLeader(s3, ids, a, 1, []) && done <= ids && a !in done
    requires forall v :: v in done ==> OneVote(s3, ids, v)
    requires f in ids && f != a && f !in done && |done| + 2 > (|ids| - 1) / 2
    ensures Reaches(s3, s, checked) && LeaderAtTime(s, a, 1)
    ensures OthersSame(s3, AfterSuccess(s, a, f), done + {a})
    ensures HasCommitted(AfterSuccess(s, a, f), a, [LogEntry(1, "k", "x")])
  {
    hide Reaches, NewLeader, Collecting, AfterSuccess, OthersSame, HasCommitted;
    var e := LogEntry(1, "k", "x");
    ReachesSelf(s3, checked);
    forall v | v in done ensures CanFollow(s3, v, [], 1) {
      assert OneVote(s3, ids, v);
    }
    var s4 := ProposeFirst(s3, ids, s3, a, [], e, done, checked);
    s := CollectAll(s3, ids, s4, a, [], e, {}, done, checked);
    assert {} + done == done;
    CollectingLeads(s, ids, a, e, done);
    LateCount(ids, s, a, e, done, f);
    SameTwice(s3, s4, s, {a}, done + {a}, done + {a});
    SameTwice(s3, s, AfterSuccess(s, a, f), done + {a}, {a}, done + {a});
  }

  lemma CollectingLeads(s: Cluster, ids: set<NodeId>, a: NodeId, e: LogEntry, done: set<NodeId>)
    requires Collecting(s, ids, a, [], e, done, {})
    ensures LeaderAtTime(s, a, e.term)
  {
  }

  lemma StillUp(s: Cluster, s': Cluster, ids: set<NodeId>, v: NodeId, touched: set<NodeId>, checked: bool)
    requires OneVote(s, ids, v) && OthersSame(s, s', touched) && v !in touched
    ensures OneVote(s', ids, v) && HasLog(s', ids, v, []) && Rep(s', v).term == 1
    ensures MayVote(s', v, 2, [], checked)
  {
  }

  /** One late success is enough in any cluster of three or more: a is one
      acknowledgement short of a majority for x and counts f, which accepted an
      earlier, empty request. So a commits x although a majority is without it;
      that majority elects b, and b commits y. */
  lemma LateReplyLosesCommits(ids: set<NodeId>, checked: bool)
    returns (s1: Cluster, s: Cluster, s': Cluster, a: NodeId, f: NodeId, b: NodeId, without: set<NodeId>)
    requires |ids| % 2 == 1 && |ids| > 1
    ensures Reaches(Init(ids), s1, checked) && Pending(s1, s, a, f, checked)
    ensures HasCommitted(AfterSuccess(s, a, f), a, [LogEntry(1, "k", "x")])
    ensures Majority(ids, without) && forall v :: v in without ==> HasLog(AfterSuccess(s, a, f), ids, v, [])
    ensures Reaches(AfterSuccess(s, a, f), s', checked)
    ensures HasCommitted(s', a, [LogEntry(1, "k", "x")]) && HasCommitted(s', b, [LogEntry(2, "k", "y")])
  {
    hide Reaches, NewLeader, Majority, Init, Enabled, BuildAppend, SendStep, DeliverStep, Accepted, AfterSuccess;
    hide OneVote, MayVote;
    a :| a in ids;
    var done;
    done, without, f, b := OneShort(ids, a);
    var s3;
    s1, s3 := LeadAndSend(ids, a, f, checked);
    s := CountTooMany(ids, s3, a, done, f, checked);
    var after := AfterSuccess(s, a, f);
    ReachesSelf(after, checked);
    forall v | v in without
      ensures HasLog(after, ids, v, []) && Rep(after, v).term == 1 && MayVote(after, v, 2, [], checked)
    {
      StillUp(s3, after, ids, v, done + {a}, checked);
    }
    assert without - {b} + {b} == without;
    s' := CommitNext(after, ids, after, b, LogEntry(2, "k", "y"), without - {b}, checked);
  }
}

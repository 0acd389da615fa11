/** Requests on the network over whole runs: what a delivery commits, why late
    and repeated requests do no harm, and how a follower catches up. */
module Delivery {
  import opened Types
  import opened Logs
  import opened Replicas
  import opened Clusters
  import opened BaseInvariant
  import opened BaseSteps
  import opened SafeInvariant
  import opened SafeSteps
  import opened Steps
  import opened Safety

  // ------------------------------------------------------- indices only go up

  predicate Later(r: Replica, r': Replica) {
    r.commitIndex <= r'.commitIndex && r.lastApplied <= r'.lastApplied
  }

  lemma DeliverLater(s: Cluster, q: AppendRequest, v: NodeId)
    requires NetOk(s) && ReignsHold(s) && CommitsOk(s) && q in s.net && v in s.members
    ensures Later(Rep(s, v), HandleAppend(Rep(s, v), q).0)
  {
    hide NetOk, ReignsHold, CommitsOk, Merge, ApplyAll;
    CommitAt(s, v);
    if Accepts(Rep(s, v), q) {
      CommittedSurvives(s, q, v);
    }
  }

  lemma UpdateCommitLater(r: Replica)
    ensures Later(r, UpdateCommit(r))
  {
    hide ApplyAll, Committable;
  }

  lemma ReplyLater(r: Replica, f: NodeId, success: bool)
    ensures Later(r, HandleAppendReply(r, f, success))
  {
    hide UpdateCommit;
    UpdateCommitLater(r.(nextIndex := r.nextIndex[f := |r.log| + 1], matchIndex := r.matchIndex[f := |r.log|]));
  }

  lemma ExchangeLater(s: Cluster, n: NodeId, f: NodeId, x: NodeId)
    requires Base(s) && Safe(s) && CanExchange(s, n, f) && x in s.members
    ensures x in ExchangeStep(s, n, f).members && Later(Rep(s, x), Rep(ExchangeStep(s, n, f), x))
  {
    hide Electoral, Replicated, Bookkept, ReignsHold, NodesHold, VotersHold, CommitsOk, NetCommitsOk;
    hide HandleAppend, HandleAppendReply, BuildAppend, CanSend;
    var q := BuildAppend(Rep(s, n), f);
    SendBase(s, n, f);
    SendSafe(s, n, f);
    DeliverLaterIn(SendStep(s, n, f), q, f);
    ReplyLater(Rep(s, n), f, HandleAppend(Rep(s, f), q).1);
  }

  lemma DeliverLaterIn(s: Cluster, q: AppendRequest, v: NodeId)
    requires Base(s) && Safe(s) && q in s.net && v in s.members
    ensures Later(Rep(s, v), HandleAppend(Rep(s, v), q).0)
  {
    hide LogsOk, AcksOk, NetOk, Electoral, Bookkept, ReignsHold;
    hide NodesHold, VotersHold, CommitsOk, NetCommitsOk, HandleAppend, Later;
    DeliverLater(s, q, v);
  }

  /** No action moves a commit index or an applied index back. */
  lemma ActionLater(s: Cluster, a: Action, x: NodeId)
    requires Base(s) && Safe(s) && Enabled(s, a, true) && x in s.members
    ensures x in Step(s, a, true).members && Later(Rep(s, x), Rep(Step(s, a, true), x))
  {
    hide Base, Safe, HandleAppend, HandleAppendReply, UpdateCommit, BuildAppend, CanSend, ExchangeStep;
    match a
    case Elect(n) =>
    case AnswerVote(ballot, v, reply, received) =>
    case Win(n) =>
    case Propose(n, key, value) =>
    case Send(n, f) =>
    case Deliver(q, v) => DeliverLaterIn(s, q, v);
    case Exchange(n, f) => ExchangeLater(s, n, f, x);
    case Reply(n, f, success) => ReplyLater(Rep(s, n), f, success);
    case Recount(n) => UpdateCommitLater(Rep(s, n));
  }

  lemma {:induction false} RunLater(ids: set<NodeId>, states: seq<Cluster>, actions: seq<Action>,
                                    i: nat, j: nat, x: NodeId)
    requires |ids| % 2 == 1 && IsRun(ids, states, actions, true)
    requires i <= j < |states| && x in states[i].members
    ensures x in states[j].members && Later(Rep(states[i], x), Rep(states[j], x))
    decreases j - i
  {
    hide Base, Safe, Step, Enabled, Init;
    if i < j {
      RunLater(ids, states, actions, i, j - 1, x);
      RunKeeps(ids, states, actions, true, j - 1);
      assert states[j - 1 + 1] == Step(states[j - 1], actions[j - 1], true);
      ActionLater(states[j - 1], actions[j - 1], x);
    }
  }

  /** What a node has committed stays in its log for the rest of the run, and its
      indices keep their order and never go down. */
  lemma CommittedStays(ids: set<NodeId>, states: seq<Cluster>, actions: seq<Action>,
                       i: nat, j: nat, x: NodeId)
    requires |ids| % 2 == 1 && IsRun(ids, states, actions, true)
    requires i <= j < |states| && x in states[i].members
    ensures x in states[j].members && Later(Rep(states[i], x), Rep(states[j], x))
    ensures Ordered(Rep(states[i], x)) && Ordered(Rep(states[j], x))
    ensures Rep(states[i], x).log[..Rep(states[i], x).commitIndex] <= Rep(states[j], x).log
  {
    hide IsRun;
    RunLater(ids, states, actions, i, j, x);
    CommittedPrefixesAgree(ids, states, actions, i, j, x, x);
  }

  // --------------------------------------------------------- where requests come from

  /** The action builds the request, from the leader's state before it. */
  ghost predicate Builds(s: Cluster, a: Action, q: AppendRequest) {
    && (a.Send? || a.Exchange?)
    && CanExchange(s, a.node, a.follower)
    && q == BuildAppend(Rep(s, a.node), a.follower)
  }

  /** Every request on the network was built by an earlier action of the run. */
  lemma {:induction false} RequestOrigin(ids: set<NodeId>, states: seq<Cluster>, actions: seq<Action>,
                                         checked: bool, j: nat, q: AppendRequest) returns (i: nat)
    requires IsRun(ids, states, actions, checked) && j < |states| && q in states[j].net
    ensures i < j && Builds(states[i], actions[i], q)
  {
    hide Builds;
    assert j > 0;
    var s, a := states[j - 1], actions[j - 1];
    assert states[j - 1 + 1] == Step(s, a, checked);
    if q in s.net {
      i := RequestOrigin(ids, states, actions, checked, j - 1, q);
    } else {
      NewRequest(s, a, checked, q);
      i := j - 1;
    }
  }

  lemma NewRequest(s: Cluster, a: Action, checked: bool, q: AppendRequest)
    requires Enabled(s, a, checked) && q in Step(s, a, checked).net && q !in s.net
    ensures Builds(s, a, q)
  {
    hide BuildAppend, HandleAppend, HandleAppendReply, UpdateCommit, CanSend;
  }

  /** The leader's log when it built a request is the part of its reign's log
      that the request reaches to. */
  lemma BuiltFacts(s: Cluster, a: Action, q: AppendRequest)
    requires LeadersOk(s) && ReignsOk(s) && Builds(s, a, q)
    ensures a.node in s.members && Rep(s, a.node).term == q.term
    ensures q.term in s.reigns && s.reigns[q.term] == Reign(a.node, Rep(s, a.node).log)
    ensures End(q) == |Rep(s, a.node).log| && q.leaderCommit == Rep(s, a.node).commitIndex
  {
    hide LeadersOk, ReignsOk;
    LeaderAt(s, a.node);
  }

  // ---------------------------------------------------------------- deliveries

  /** A follower never commits beyond what the request and the match before it
      cover: its new commit index is the announced one, it is at most the last
      index the request reaches, and up to there its log is the sender's log at
      the time the request was built. */
  lemma FollowerCommit(ids: set<NodeId>, states: seq<Cluster>, actions: seq<Action>,
                       i: nat, j: nat, q: AppendRequest, v: NodeId)
    requires |ids| % 2 == 1 && IsRun(ids, states, actions, true)
    requires i <= j < |states| && i < |actions| && Builds(states[i], actions[i], q)
    requires q in states[j].net && v in states[j].members
    requires HandleAppend(Rep(states[j], v), q).1
    ensures
      var sender, before := Rep(states[i], actions[i].node), Rep(states[j], v);
      var after := HandleAppend(before, q).0;
      && sender.log <= after.log
      && q.leaderCommit <= q.prevLogIndex + |q.entries| == |sender.log|
      && after.commitIndex == (if before.commitIndex < q.leaderCommit then q.leaderCommit else before.commitIndex)
      && (before.commitIndex < after.commitIndex ==>
            after.log[..after.commitIndex] == sender.log[..after.commitIndex])
  {
    hide Step, Enabled, Base, ReignsHold, NodesHold, VotersHold;
    hide CommitsOk, NetCommitsOk, Merge, BuildAppend, CanSend, Grows, ApplyAll;
    RunKeeps(ids, states, actions, true, i);
    RunKeeps(ids, states, actions, true, j);
    RunGrows(ids, states, actions, true, i, j);
    SenderAt(states[i], states[j], actions[i], q);
    SentIsStored(states[j], q, v);
    var sender, after := Rep(states[i], actions[i].node).log, HandleAppend(Rep(states[j], v), q).0.log;
    assert states[j].reigns[q.term].log[..End(q)] == sender;
    CommitAt(states[i], actions[i].node);
  }

  lemma SenderAt(s: Cluster, s': Cluster, a: Action, q: AppendRequest)
    requires Base(s) && Grows(s, s') && Builds(s, a, q)
    ensures a.node in s.members && q.leaderCommit == Rep(s, a.node).commitIndex
    ensures q.term in s'.reigns && End(q) == |Rep(s, a.node).log| <= |s'.reigns[q.term].log|
    ensures s'.reigns[q.term].leader == a.node && Rep(s, a.node).term == q.term
    ensures s'.reigns[q.term].log[..End(q)] == Rep(s, a.node).log
  {
    hide LeadersOk, ReignsOk, VotesOk, CandidatesOk, BallotsOk;
    hide Replicated, Bookkept, BuildAppend, CanSend, MemberGrows;
    BuiltFacts(s, a, q);
  }

  lemma SentIsStored(s: Cluster, q: AppendRequest, v: NodeId)
    requires Base(s) && q in s.net && v in s.members && HandleAppend(Rep(s, v), q).1
    ensures q.term in s.reigns && End(q) <= |s.reigns[q.term].log|
    ensures s.reigns[q.term].log[..End(q)] <= HandleAppend(Rep(s, v), q).0.log
    ensures HandleAppend(Rep(s, v), q).0.log == Merge(Rep(s, v).log, q.prevLogIndex, q.entries)
  {
    hide Electoral, LogsOk, NetOk, AcksOk, Bookkept, Merge, ApplyAll;
    NetAt(s, q);
    DeliveredLog(s, q, v);
  }

  /** A slice of a log that the node's log begins with adds nothing. */
  lemma KnownSliceMerges(log: Log, known: Log, prev: nat, end: nat)
    requires known <= log && prev <= end <= |known|
    ensures Merge(log, prev, known[prev..end]) == log
  {
    OverlapUnique(log, prev, known[prev..end], end - prev);
  }

  /** The action delivers the request to v, which accepts it. */
  ghost predicate Accepted(s: Cluster, a: Action, q: AppendRequest, v: NodeId) {
    && v in s.members && HandleAppend(Rep(s, v), q).1
    && (a == Deliver(q, v) || (a.Exchange? && a.follower == v && Builds(s, a, q)))
  }

  /** What v has and knows of the term of an accepted request from then on. */
  ghost predicate Covers(s: Cluster, v: NodeId, term: nat, end: nat, commit: nat) {
    && v in s.members && term <= Rep(s, v).term
    && end <= Ack(s, v, term) && commit <= Rep(s, v).commitIndex
  }

  lemma StoredCommit(s: Cluster, q: AppendRequest, v: NodeId)
    requires Base(s) && Safe(s) && q in s.net && v in s.members && HandleAppend(Rep(s, v), q).1
    ensures q.leaderCommit <= HandleAppend(Rep(s, v), q).0.commitIndex
  {
    hide Electoral, LogsOk, NetOk, AcksOk, Bookkept, ReignsHold, NodesHold, VotersHold, CommitsOk, NetCommitsOk;
    hide Merge, ApplyAll, Backed;
    NetAt(s, q);
    DeliveredLog(s, q, v);
    AnnouncedAt(s, q);
  }

  lemma DeliveredCovers(s: Cluster, q: AppendRequest, v: NodeId)
    requires Base(s) && Safe(s) && q in s.net && v in s.members && HandleAppend(Rep(s, v), q).1
    ensures Covers(DeliverStep(s, q, v), v, q.term, End(q), q.leaderCommit)
  {
    hide Base, Safe, HandleAppend;
    StoredCommit(s, q, v);
    AfterAccept(Rep(s, v), q);
  }

  lemma AcceptedCovers(s: Cluster, a: Action, q: AppendRequest, v: NodeId)
    requires Base(s) && Safe(s) && Enabled(s, a, true) && Accepted(s, a, q, v)
    ensures Covers(Step(s, a, true), v, q.term, End(q), q.leaderCommit)
  {
    hide Base, Safe, HandleAppend, HandleAppendReply, BuildAppend, CanSend, DeliverStep;
    if a.Exchange? {
      SendBase(s, a.node, v);
      SendSafe(s, a.node, v);
      DeliveredCovers(SendStep(s, a.node, v), q, v);
    } else {
      DeliveredCovers(s, q, v);
    }
  }

  lemma CoversLater(ids: set<NodeId>, states: seq<Cluster>, actions: seq<Action>,
                    d: nat, j: nat, v: NodeId, term: nat, end: nat, commit: nat)
    requires |ids| % 2 == 1 && IsRun(ids, states, actions, true) && d <= j < |states|
    requires Covers(states[d], v, term, end, commit)
    ensures Covers(states[j], v, term, end, commit)
  {
    hide IsRun, ReignsGrow;
    RunGrows(ids, states, actions, true, d, j);
    RunLater(ids, states, actions, d, j, v);
    assert MemberGrows(states[d].members[v], states[j].members[v]);
  }

  /** A late request of which the receiver has accepted everything leaves its log
      alone, whatever its term is by then. */
  lemma LateRequestKeepsLog(s: Cluster, q: AppendRequest, v: NodeId)
    requires Base(s) && q in s.net && v in s.members && End(q) <= Ack(s, v, q.term)
    ensures HandleAppend(Rep(s, v), q).0.log == Rep(s, v).log
    ensures Rep(s, v).term == q.term ==>
              PrevMatches(Rep(s, v).log, q) && Merge(Rep(s, v).log, q.prevLogIndex, q.entries) == Rep(s, v).log
  {
    hide Electoral, LogsOk, NetOk, AcksOk, Bookkept, Merge, ApplyAll;
    NetAt(s, q);
    AckAt(s, v, q.term);
    if Rep(s, v).term == q.term && q.term in s.members[v].acked {
      KnownSlice(s.reigns[q.term].log[..Ack(s, v, q.term)], s.reigns[q.term].log, q, Rep(s, v).log);
    } else if q.term >= Rep(s, v).term {
      assert q.entries == [] && q.prevLogIndex == 0;
      MergeNothing(Rep(s, v).log, 0, q.entries);
      assert q.entries[..0] == q.entries;
    }
  }

  /** A request within the known beginning of the leader's log. */
  lemma KnownSlice(known: Log, l: Log, q: AppendRequest, log: Log)
    requires SliceOf(q, l) && known <= l && End(q) <= |known| && known <= log
    ensures PrevMatches(log, q) && Merge(log, q.prevLogIndex, q.entries) == log
  {
    hide Merge;
    assert q.entries == known[q.prevLogIndex..End(q)];
    KnownSliceMerges(log, known, q.prevLogIndex, End(q));
  }

  /** The same in every state of every run. */
  lemma LateRequestNeverShortens(ids: set<NodeId>, states: seq<Cluster>, actions: seq<Action>, checked: bool,
                                 j: nat, q: AppendRequest, v: NodeId)
    requires |ids| % 2 == 1 && IsRun(ids, states, actions, checked) && j < |states|
    requires q in states[j].net && v in states[j].members && End(q) <= Ack(states[j], v, q.term)
    ensures HandleAppend(Rep(states[j], v), q).0.log == Rep(states[j], v).log
  {
    hide IsRun, Base, HandleAppend, Merge;
    RunKeeps(ids, states, actions, checked, j);
    LateRequestKeepsLog(states[j], q, v);
  }

  /** After v has accepted a request, that request and every request of the same
      term built before it change nothing at all at any later time of the run:
      not the log, not the indices, not the table, not the term. They still
      succeed for as long as v stays in the term. */
  lemma OlderRequestChangesNothing(ids: set<NodeId>, states: seq<Cluster>, actions: seq<Action>,
                                   i: nat, k: nat, d: nat, j: nat,
                                   older: AppendRequest, newer: AppendRequest, v: NodeId)
    requires |ids| % 2 == 1 && IsRun(ids, states, actions, true)
    requires i <= k <= d < j < |states|
    requires Builds(states[i], actions[i], older) && Builds(states[k], actions[k], newer)
    requires older.term == newer.term && Accepted(states[d], actions[d], newer, v)
    ensures v in states[j].members
    ensures HandleAppend(Rep(states[j], v), older) == (Rep(states[j], v), Rep(states[j], v).term == older.term)
  {
    hide Step, Enabled, Base, Safe, Builds, Accepted, Merge, PrevMatches, Grows;
    RunKeeps(ids, states, actions, true, d);
    RunKeeps(ids, states, actions, true, j);
    SameSender(ids, states, actions, i, k, older, newer);
    AcceptedCovers(states[d], actions[d], newer, v);
    CoversLater(ids, states, actions, d + 1, j, v, newer.term, End(newer), newer.leaderCommit);
    BuiltIsSent(ids, states, actions, i, j, older);
    LateRequestKeepsLog(states[j], older, v);
    if Rep(states[j], v).term == older.term {
      KnownRequest(Rep(states[j], v), older);
    }
  }

  /** A request that was built is on the network from then on. */
  lemma BuiltIsSent(ids: set<NodeId>, states: seq<Cluster>, actions: seq<Action>, i: nat, j: nat, q: AppendRequest)
    requires |ids| % 2 == 1 && IsRun(ids, states, actions, true)
    requires i < j < |states| && Builds(states[i], actions[i], q)
    ensures q in states[j].net
  {
    hide HandleAppend, HandleAppendReply, BuildAppend, CanSend, MemberGrows, ReignsGrow;
    RunGrows(ids, states, actions, true, i + 1, j);
    assert states[i + 1] == Step(states[i], actions[i], true);
  }

  /** The older request reaches no further and announces no more. */
  lemma SameSender(ids: set<NodeId>, states: seq<Cluster>, actions: seq<Action>,
                   i: nat, k: nat, older: AppendRequest, newer: AppendRequest)
    requires |ids| % 2 == 1 && IsRun(ids, states, actions, true) && i <= k < |actions|
    requires Builds(states[i], actions[i], older) && Builds(states[k], actions[k], newer)
    requires older.term == newer.term
    ensures End(older) <= End(newer) && older.leaderCommit <= newer.leaderCommit
  {
    hide Step, Enabled, BuildAppend, CanSend, Safe, LeadersOk;
    hide ReignsOk, VotesOk, CandidatesOk, BallotsOk, Replicated, Bookkept, MemberGrows;
    RunKeeps(ids, states, actions, true, i);
    RunKeeps(ids, states, actions, true, k);
    RunGrows(ids, states, actions, true, i, k);
    BuiltFacts(states[i], actions[i], older);
    BuiltFacts(states[k], actions[k], newer);
    RunLater(ids, states, actions, i, k, actions[i].node);
  }

  lemma AfterAccept(r: Replica, q: AppendRequest)
    requires HandleAppend(r, q).1
    ensures HandleAppend(r, q).0.term == q.term
  {
    hide Merge, ApplyAll;
  }

  lemma KnownRequest(r: Replica, q: AppendRequest)
    requires r.term == q.term && PrevMatches(r.log, q) && q.leaderCommit <= r.commitIndex
    requires Merge(r.log, q.prevLogIndex, q.entries) == r.log
    ensures HandleAppend(r, q) == (r, true)
  {
    hide Merge, ApplyAll;
  }
}

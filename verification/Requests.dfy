/** From one reply of a peer to the next request to it, over whole runs. */
module Requests {
  import opened Types
  import opened Logs
  import opened Replicas
  import opened Quorums
  import opened Clusters
  import opened BaseInvariant
  import opened BaseSteps
  import opened Steps
  import opened Safety
  import opened NodeOutcomes

  /** The leader n processes a reply of f. */
  ghost predicate Processes(s: Cluster, a: Action, n: NodeId, f: NodeId, success: bool) {
    && n in s.members && f in s.members && Rep(s, n).role == Leader
    && (|| a == Reply(n, f, success)
        || (a == Exchange(n, f) && CanExchange(s, n, f)
            && success == HandleAppend(Rep(s, f), BuildAppend(Rep(s, n), f)).1))
  }

  predicate IsReplyOf(a: Action, n: NodeId, f: NodeId) {
    (a.Reply? || a.Exchange?) && a.node == n && a.follower == f
  }

  lemma ProcessedNext(s: Cluster, a: Action, checked: bool, n: NodeId, f: NodeId, success: bool)
    requires Enabled(s, a, checked) && Processes(s, a, n, f, success)
    ensures
      var s' := Step(s, a, checked);
      && n in s'.members && Rep(s', n).log == Rep(s, n).log && Rep(s', n).term == Rep(s, n).term
      && NextFor(Rep(s', n), f) ==
         if success then |Rep(s, n).log| + 1
         else if NextFor(Rep(s, n), f) > 2 then NextFor(Rep(s, n), f) - 1 else 1
  {
    hide HandleAppend, HandleAppendReply, UpdateCommit, BuildAppend, CanSend;
    ReplyOutcome(Rep(s, n), f, success);
    if success {
      UpdateCommitOutcome(Rep(s, n).(nextIndex := HandleAppendReply(Rep(s, n), f, true).nextIndex,
                                     matchIndex := HandleAppendReply(Rep(s, n), f, true).matchIndex));
    }
  }

  /** While n stays leader, only a reply of f moves the next index of f. */
  lemma NextIndexStays(s: Cluster, a: Action, checked: bool, n: NodeId, f: NodeId)
    requires Enabled(s, a, checked) && n in s.members && Rep(s, n).role == Leader && !IsReplyOf(a, n, f)
    ensures n in Step(s, a, checked).members
    ensures NextFor(Rep(Step(s, a, checked), n), f) == NextFor(Rep(s, n), f)
  {
    hide HandleAppend, HandleAppendReply, UpdateCommit, BuildAppend, CanSend, SetAll;
    hide IsQuorumCount, ExchangeStep, VoterContract, VoterStep, CandidateStep;
    match a
    case Elect(m) =>
    case AnswerVote(ballot, v, reply, received) =>
      AnswerReplicas(s, ballot, v, reply, received, checked);
      assert VoteOnly(Rep(s, n), Rep(Step(s, a, checked), n));
    case Win(m) =>
    case Propose(m, key, value) =>
    case Send(m, g) =>
    case Deliver(q, v) => AppendNext(Rep(s, v), q);
    case Exchange(m, g) =>
      ExchangeReplicas(s, m, g);
      AppendNext(Rep(s, g), BuildAppend(Rep(s, m), g));
      ReplyNext(Rep(s, m), g, HandleAppend(Rep(s, g), BuildAppend(Rep(s, m), g)).1, f);
    case Reply(m, g, success) => ReplyNext(Rep(s, m), g, success, f);
    case Recount(m) => UpdateCommitOutcome(Rep(s, m));
  }

  lemma AppendNext(r: Replica, q: AppendRequest)
    ensures HandleAppend(r, q).0.nextIndex == r.nextIndex
  {
    hide HandleAppend, Stored;
    AppendOutcome(r, q);
  }

  lemma ReplyNext(r: Replica, g: NodeId, success: bool, f: NodeId)
    ensures f != g ==> NextFor(HandleAppendReply(r, g, success), f) == NextFor(r, f)
  {
    hide HandleAppendReply;
    ReplyOutcome(r, g, success);
  }

  /** A leader that leads the same term later has led it all the while. */
  lemma LedBetween(ids: set<NodeId>, states: seq<Cluster>, actions: seq<Action>, checked: bool,
                   i: nat, k: nat, j: nat, n: NodeId)
    requires |ids| % 2 == 1 && IsRun(ids, states, actions, checked) && i <= k <= j < |states|
    requires n in states[i].members && Rep(states[i], n).role == Leader
    requires LeaderAtTime(states[j], n, Rep(states[i], n).term)
    ensures LeaderAtTime(states[k], n, Rep(states[i], n).term)
    ensures Rep(states[i], n).log <= Rep(states[k], n).log
  {
    hide IsRun, VotesOk, CandidatesOk, BallotsOk, Replicated, Bookkept, Shape, Majority, Voters, LeadersOk, ReignsOk;
    var t := Rep(states[i], n).term;
    RunKeeps(ids, states, actions, checked, i);
    RunKeeps(ids, states, actions, checked, k);
    RunGrows(ids, states, actions, checked, i, k);
    RunGrows(ids, states, actions, checked, k, j);
    LeaderAt(states[i], n);
    assert MemberGrows(states[i].members[n], states[k].members[n]);
    assert MemberGrows(states[k].members[n], states[j].members[n]);
    ReignHasLeader(states[k], t);
  }

  lemma ReignHasLeader(s: Cluster, t: nat)
    requires ReignsOk(s) && t in s.reigns
    ensures ReignOk(s, t, s.reigns[t].leader)
  {
  }

  lemma {:induction false} NextIndexUntil(ids: set<NodeId>, states: seq<Cluster>, actions: seq<Action>, checked: bool,
                                          i: nat, j: nat, n: NodeId, f: NodeId)
    requires |ids| % 2 == 1 && IsRun(ids, states, actions, checked) && i <= j < |states|
    requires n in states[i].members && Rep(states[i], n).role == Leader
    requires LeaderAtTime(states[j], n, Rep(states[i], n).term)
    requires forall k :: i <= k < j ==> !IsReplyOf(actions[k], n, f)
    ensures NextFor(Rep(states[j], n), f) == NextFor(Rep(states[i], n), f)
    decreases j - i
  {
    hide Step, Enabled, Init, IsReplyOf;
    if i < j {
      LedBetween(ids, states, actions, checked, i, j - 1, j, n);
      NextIndexUntil(ids, states, actions, checked, i, j - 1, n, f);
      assert states[j - 1 + 1] == Step(states[j - 1], actions[j - 1], checked);
      NextIndexStays(states[j - 1], actions[j - 1], checked, n, f);
    }
  }

  /** The leader n processes a reply of f at i, and no other of f up to j, where it
      still leads the term. After a refusal its request to f at j starts one index
      lower than the one it would have built at i, but not below the first; after
      a success it carries exactly the entries appended since. */
  lemma NextRequest(ids: set<NodeId>, states: seq<Cluster>, actions: seq<Action>, checked: bool,
                    i: nat, j: nat, n: NodeId, f: NodeId, success: bool)
    requires |ids| % 2 == 1 && IsRun(ids, states, actions, checked) && i < j < |states|
    requires n != f && Processes(states[i], actions[i], n, f, success)
    requires LeaderAtTime(states[j], n, Rep(states[i], n).term)
    requires forall k :: i < k < j ==> !IsReplyOf(actions[k], n, f)
    ensures CanSend(Rep(states[i], n), f) && CanSend(Rep(states[j], n), f)
    ensures Rep(states[i], n).log <= Rep(states[j], n).log
    ensures
      var former, next := BuildAppend(Rep(states[i], n), f), BuildAppend(Rep(states[j], n), f);
      var before, now := Rep(states[i], n).log, Rep(states[j], n).log;
      && next.entries == now[next.prevLogIndex..]
      && (success ==>
            next.prevLogIndex == |before| && next.prevLogTerm == LastTerm(before) && now == before + next.entries)
      && (!success ==> next.prevLogIndex == if former.prevLogIndex > 0 then former.prevLogIndex - 1 else 0)
  {
    hide Step, Enabled, Init, Processes, IsReplyOf, BuildAppend, CanSend;
    MembersStay(ids, states, actions, checked, i, j, n, f, success);
    LedBetween(ids, states, actions, checked, i, i + 1, j, n);
    LedBetween(ids, states, actions, checked, i, j, j, n);
    MatchIndexSound(ids, states, actions, checked, i, n, f);
    MatchIndexSound(ids, states, actions, checked, j, n, f);
    ProcessedNext(states[i], actions[i], checked, n, f, success);
    NextIndexUntil(ids, states, actions, checked, i + 1, j, n, f);
    BuildAppendOutcome(Rep(states[i], n), f);
    BuildAppendOutcome(Rep(states[j], n), f);
  }

  lemma MembersStay(ids: set<NodeId>, states: seq<Cluster>, actions: seq<Action>, checked: bool,
                    i: nat, j: nat, n: NodeId, f: NodeId, success: bool)
    requires |ids| % 2 == 1 && IsRun(ids, states, actions, checked) && i < j < |states|
    requires Processes(states[i], actions[i], n, f, success)
    ensures n in states[i].members && f in states[i].members && f in states[j].members
    ensures Rep(states[i], n).role == Leader
  {
    hide IsRun, MemberGrows, ReignsGrow, HandleAppend, BuildAppend;
    RunGrows(ids, states, actions, checked, i, j);
  }
}

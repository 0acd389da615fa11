/** A node's vote: what it keeps in its own field against what it has given in the
    run, and what a candidate makes of the replies. */
module Votes {
  import opened Types
  import opened Replicas
  import opened Clusters
  import opened BaseInvariant
  import opened BaseSteps
  import opened Steps
  import opened NodeOutcomes

  /** Directly after starting an election a node has voted for itself in its new
      term, in its field as in the history. */
  lemma ElectVotes(ids: set<NodeId>, states: seq<Cluster>, actions: seq<Action>, checked: bool, i: nat, n: NodeId)
    requires |ids| % 2 == 1 && IsRun(ids, states, actions, checked)
    requires i < |actions| && actions[i] == Elect(n)
    ensures n in states[i].members && n in states[i + 1].members
    ensures
      var r, r' := Rep(states[i], n), Rep(states[i + 1], n);
      && r'.term == r.term + 1 && r'.role == Candidate && r'.votedFor == Some(n) && SameButRole(r, r')
      && VotedFor(states[i + 1], n, r'.term, n) && states[i + 1].members[n].granted == {}
      && BallotOf(r') in states[i + 1].ballots
  {
    hide VotesOk, CandidatesOk, LeadersOk, ReignsOk, BallotsOk, Replicated, Bookkept, Init;
    RunKeeps(ids, states, actions, checked, i);
    assert Enabled(states[i], actions[i], checked) && states[i + 1] == Step(states[i], actions[i], checked);
  }

  /** Directly after a grant the voter's field names the candidate it granted, and
      so does the history in the ballot's term. */
  lemma GrantNamesCandidate(s: Cluster, ballot: VoteRequest, v: NodeId, reply: VoteReply, received: bool, checked: bool)
    requires Enabled(s, AnswerVote(ballot, v, reply, received), checked) && reply.voteGranted
    ensures
      var s' := Step(s, AnswerVote(ballot, v, reply, received), checked);
      && v in s'.members && Rep(s', v).votedFor == Some(ballot.candidateId)
      && VotedFor(s', v, ballot.term, ballot.candidateId)
      && ballot.term <= Rep(s', v).term && Rep(s, v).term <= Rep(s', v).term
  {
  }

  /** After a reply has been received the candidate is in the reply's term or a
      higher one. If that term was higher than its own, it is a follower without a
      vote and has counted no grant; otherwise it has only counted a grant of its
      own round. */
  lemma ReplyReceived(s: Cluster, ballot: VoteRequest, v: NodeId, reply: VoteReply, checked: bool)
    requires Enabled(s, AnswerVote(ballot, v, reply, true), checked)
    ensures
      var s' := Step(s, AnswerVote(ballot, v, reply, true), checked);
      var c := ballot.candidateId;
      && c in s.members && c in s'.members && reply.term <= Rep(s', c).term
      && SameButRole(Rep(s, c), Rep(s', c))
      && (reply.term > Rep(s, c).term ==>
            && Rep(s', c).role == Follower && Rep(s', c).term == reply.term && Rep(s', c).votedFor == None
            && s'.members[c].granted == s.members[c].granted)
      && (reply.term <= Rep(s, c).term ==>
            && Rep(s', c) == Rep(s, c)
            && s'.members[c].granted == s.members[c].granted +
                 if reply.voteGranted && ballot.term == Rep(s, c).term then {v} else {})
  {
  }

  // --------------------------------------------------------- the field over runs

  /** The field names a candidate the node has voted for in some term up to its
      own. */
  ghost predicate FieldIsVote(m: Member) {
    m.replica.votedFor.Some? ==>
      exists t :: t in m.voted && t <= m.replica.term && m.voted[t] == m.replica.votedFor.value
  }

  lemma FieldKept(m: Member, m': Member)
    requires FieldIsVote(m) && MemberGrows(m, m') && m'.replica.votedFor in {m.replica.votedFor, None}
    ensures FieldIsVote(m')
  {
    if m'.replica.votedFor.Some? {
      var t :| t in m.voted && t <= m.replica.term && m.voted[t] == m.replica.votedFor.value;
      assert t in m'.voted && t <= m'.replica.term && m'.voted[t] == m'.replica.votedFor.value;
    }
  }

  lemma UpdateKeepsField(r: Replica)
    ensures UpdateCommit(r).votedFor == r.votedFor
  {
    UpdateCommitOutcome(r);
  }

  lemma ReplyKeepsField(r: Replica, f: NodeId, success: bool)
    ensures HandleAppendReply(r, f, success).votedFor == r.votedFor
  {
    hide UpdateCommit;
    ReplyOutcome(r, f, success);
    UpdateKeepsField(r.(nextIndex := HandleAppendReply(r, f, success).nextIndex,
                        matchIndex := HandleAppendReply(r, f, success).matchIndex));
  }

  lemma AppendKeepsField(r: Replica, q: AppendRequest)
    ensures HandleAppend(r, q).0.votedFor in {r.votedFor, None}
  {
    hide HandleAppend, Stored;
    AppendOutcome(r, q);
  }

  /** The field is left, cleared, or set to a recorded vote. */
  ghost predicate FieldMoves(s: Cluster, s': Cluster, x: NodeId) {
    && x in s.members && x in s'.members
    && (Rep(s', x).votedFor in {Rep(s, x).votedFor, None} || FieldIsVote(s'.members[x]))
  }

  lemma ElectField(s: Cluster, n: NodeId, x: NodeId)
    requires n in s.members && x in s.members && Rep(s, n).id == n
    ensures FieldMoves(s, ElectStep(s, n), x)
  {
    assert VotedFor(ElectStep(s, n), n, Rep(s, n).term + 1, n);
  }

  lemma AnswerField(s: Cluster, ballot: VoteRequest, v: NodeId, reply: VoteReply, received: bool, checked: bool,
                    x: NodeId)
    requires Enabled(s, AnswerVote(ballot, v, reply, received), checked) && x in s.members
    ensures FieldMoves(s, Step(s, AnswerVote(ballot, v, reply, received), checked), x)
  {
    assert reply.voteGranted ==> VotedFor(VoterStep(s, ballot, v, reply), v, ballot.term, ballot.candidateId);
  }

  lemma ActionField(s: Cluster, a: Action, checked: bool, x: NodeId)
    requires Enabled(s, a, checked) && x in s.members && (a.Elect? ==> Rep(s, a.node).id == a.node)
    ensures FieldMoves(s, Step(s, a, checked), x)
  {
    hide HandleAppend, HandleAppendReply, UpdateCommit, BuildAppend, CanSend, SetAll, IsQuorumCount;
    hide ExchangeStep, ElectStep, VoterStep, CandidateStep, VoterContract, FieldIsVote;
    match a
    case Elect(n) => ElectField(s, n, x);
    case AnswerVote(ballot, v, reply, received) => AnswerField(s, ballot, v, reply, received, checked, x);
    case Win(n) =>
    case Propose(n, key, value) =>
    case Send(n, f) =>
    case Deliver(q, v) => AppendKeepsField(Rep(s, v), q);
    case Exchange(n, f) =>
      ExchangeReplicas(s, n, f);
      AppendKeepsField(Rep(s, f), BuildAppend(Rep(s, n), f));
      ReplyKeepsField(Rep(s, n), f, HandleAppend(Rep(s, f), BuildAppend(Rep(s, n), f)).1);
    case Reply(n, f, success) => ReplyKeepsField(Rep(s, n), f, success);
    case Recount(n) => UpdateKeepsField(Rep(s, n));
  }

  /** In every state of every run: a vote in the field was given. */
  lemma {:induction false} VotedForIsAVote(ids: set<NodeId>, states: seq<Cluster>, actions: seq<Action>,
                                           checked: bool, i: nat, x: NodeId)
    requires |ids| % 2 == 1 && IsRun(ids, states, actions, checked) && i < |states| && x in states[i].members
    ensures FieldIsVote(states[i].members[x])
  {
    hide Step, Base, MemberGrows, FieldIsVote;
    if i == 0 {
      FreshField(ids, x);
    } else {
      var s, s' := states[i - 1], states[i];
      assert s' == states[i - 1 + 1] == Step(s, actions[i - 1], checked);
      RunKeeps(ids, states, actions, checked, i - 1);
      RunGrows(ids, states, actions, checked, i - 1, i);
      assert MemberGrows(s.members[x], s'.members[x]);
      VotedForIsAVote(ids, states, actions, checked, i - 1, x);
      OwnIds(s);
      ActionField(s, actions[i - 1], checked, x);
      if !FieldIsVote(s'.members[x]) {
        FieldKept(s.members[x], s'.members[x]);
      }
    }
  }

  lemma FreshField(ids: set<NodeId>, x: NodeId)
    requires x in Init(ids).members
    ensures FieldIsVote(Init(ids).members[x])
  {
  }

  lemma OwnIds(s: Cluster)
    requires Base(s)
    ensures forall n :: n in s.members ==> Rep(s, n).id == n
  {
  }
}

/** Many replicas and a network that may lose, delay, duplicate and reorder
    requests. Each action takes the step of Replicas.dfy at the node it names.

    Besides the replicas the state holds history no replica depends on: who voted
    for whom, how much of each leader's log a node has accepted in its term, and
    for every term that has a leader the log of that leader (its latest log
    while it leads, the final one afterwards). */
module Clusters {
  import opened Types
  import opened Logs
  import opened Replicas

  /** One node. `granted` is the set of peers whose vote has been counted in the
      node's current election round. `voted` and `acked` are history: the
      candidate voted for per term, and per term the number of entries of that
      term's leader the node has accepted. */
  datatype Member = Member(
    replica: Replica,
    granted: set<NodeId>,
    voted: map<nat, NodeId>,
    acked: map<nat, nat>)

  datatype Reign = Reign(leader: NodeId, log: Log)

  /** `net` and `ballots` hold every request ever built; a request is never
      removed, so it may be delivered late, again, or not at all. */
  datatype Cluster = Cluster(
    members: map<NodeId, Member>,
    net: set<AppendRequest>,
    ballots: set<VoteRequest>,
    reigns: map<nat, Reign>)

  function Init(ids: set<NodeId>): Cluster {
    Cluster(map n | n in ids :: Member(Fresh(n, ids - {n}), {}, map[], map[]), {}, {}, map[])
  }

  function Rep(s: Cluster, n: NodeId): Replica
    requires n in s.members
  {
    s.members[n].replica
  }

  function Ack(s: Cluster, v: NodeId, term: nat): nat
    requires v in s.members
  {
    if term in s.members[v].acked then s.members[v].acked[term] else 0
  }

  predicate VotedFor(s: Cluster, v: NodeId, term: nat, candidate: NodeId) {
    && v in s.members
    && term in s.members[v].voted
    && s.members[v].voted[term] == candidate
  }

  // ------------------------------------------------------------------ actions

  datatype Action =
    | Elect(node: NodeId)
    | AnswerVote(ballot: VoteRequest, voter: NodeId, reply: VoteReply, received: bool)
    | Win(node: NodeId)
    | Propose(node: NodeId, key: string, value: string)
    | Send(node: NodeId, follower: NodeId)
    | Deliver(request: AppendRequest, receiver: NodeId)
    | Exchange(node: NodeId, follower: NodeId)
    | Reply(node: NodeId, follower: NodeId, success: bool)
    | Recount(node: NodeId)

  /** The up-to-date check on the fields of a vote request (section 5.4.1 of the
      Raft paper). */
  predicate UpToDate(ballot: VoteRequest, log: Log) {
    || ballot.lastLogTerm > LastTerm(log)
    || (ballot.lastLogTerm == LastTerm(log) && ballot.lastLogIndex >= |log|)
  }

  /** What is assumed of the vote handler, which the program does not contain:
      a node's term never goes down, a grant leaves it at the ballot's term or
      above, and at most one candidate per term gets a grant. With `checked` it
      also compares logs. */
  predicate VoterContract(m: Member, ballot: VoteRequest, reply: VoteReply, checked: bool) {
    && m.replica.term <= reply.term
    && (reply.voteGranted ==>
          && ballot.term <= reply.term
          && (ballot.term in m.voted ==> m.voted[ballot.term] == ballot.candidateId)
          && (checked ==> UpToDate(ballot, m.replica.log)))
  }

  predicate Enabled(s: Cluster, a: Action, checked: bool) {
    match a
    case Elect(n) =>
      n in s.members
    case AnswerVote(ballot, v, reply, _) =>
      && ballot in s.ballots && ballot.candidateId in s.members
      && v in s.members && v != ballot.candidateId
      && VoterContract(s.members[v], ballot, reply, checked)
    case Win(n) =>
      // Still a candidate in the term of its round, which the program does not
      // check again.
      && n in s.members && Rep(s, n).role == Candidate
      && IsQuorumCount(Rep(s, n).peers, |s.members[n].granted| + 1)
    case Propose(n, _, _) =>
      n in s.members && Rep(s, n).role == Leader
    case Send(n, f) =>
      CanExchange(s, n, f)
    case Deliver(q, v) =>
      && q in s.net && v in s.members
      && (q.term in s.reigns ==> s.reigns[q.term].leader != v)
    case Exchange(n, f) =>
      CanExchange(s, n, f)
    case Reply(n, f, success) =>
      // The program does not check that the follower has accepted the log as
      // it is by now; see LateReplies.
      && n in s.members && f in s.members && n != f && Rep(s, n).role == Leader
      && (success ==> HasAccepted(s, n, f))
    case Recount(n) =>
      n in s.members && Rep(s, n).role == Leader
  }

  /** The peer has accepted the leader's whole log in the leader's term. */
  predicate HasAccepted(s: Cluster, n: NodeId, f: NodeId)
    requires n in s.members && f in s.members
  {
    |Rep(s, n).log| <= Ack(s, f, Rep(s, n).term)
  }

  predicate CanExchange(s: Cluster, n: NodeId, f: NodeId) {
    && n in s.members && f in s.members && n != f
    && Rep(s, n).role == Leader && CanSend(Rep(s, n), f)
  }

  function Step(s: Cluster, a: Action, checked: bool): Cluster
    requires Enabled(s, a, checked)
  {
    match a
    case Elect(n) => ElectStep(s, n)
    case AnswerVote(ballot, v, reply, received) =>
      var voted := VoterStep(s, ballot, v, reply);
      if received then CandidateStep(voted, ballot, v, reply) else voted
    case Win(n) => WinStep(s, n)
    case Propose(n, key, value) => ProposeStep(s, n, key, value)
    case Send(n, f) => SendStep(s, n, f)
    case Deliver(q, v) => DeliverStep(s, q, v)
    case Exchange(n, f) => ExchangeStep(s, n, f)
    case Reply(n, f, success) => SetReplica(s, n, HandleAppendReply(Rep(s, n), f, success))
    case Recount(n) => SetReplica(s, n, UpdateCommit(Rep(s, n)))
  }

  function SetReplica(s: Cluster, n: NodeId, r: Replica): Cluster
    requires n in s.members
  {
    s.(members := s.members[n := s.members[n].(replica := r)])
  }

  function ElectStep(s: Cluster, n: NodeId): Cluster
    requires n in s.members
  {
    var m := s.members[n];
    var r := StartElection(m.replica);
    s.(members := s.members[n := Member(r, {}, m.voted[r.term := n], m.acked)],
       ballots := s.ballots + {BallotOf(r)})
  }

  function VoterStep(s: Cluster, ballot: VoteRequest, v: NodeId, reply: VoteReply): Cluster
    requires v in s.members
  {
    var m := s.members[v];
    var r := AdoptTerm(m.replica, reply.term);
    var after :=
      if reply.voteGranted then
        m.(replica := r.(votedFor := Some(ballot.candidateId)),
           voted := m.voted[ballot.term := ballot.candidateId])
      else m.(replica := r);
    s.(members := s.members[v := after])
  }

  function CandidateStep(s: Cluster, ballot: VoteRequest, v: NodeId, reply: VoteReply): Cluster
    requires ballot.candidateId in s.members
  {
    var m := s.members[ballot.candidateId];
    var (r, counted) := HandleVoteReply(m.replica, reply);
    var granted :=
      if counted && ballot.term == r.term then m.granted + {v} else m.granted;
    s.(members := s.members[ballot.candidateId := m.(replica := r, granted := granted)])
  }

  function WinStep(s: Cluster, n: NodeId): Cluster
    requires n in s.members
  {
    var m := s.members[n];
    var r := m.replica;
    s.(members := s.members[n := m.(replica := BecomeLeader(r), acked := m.acked[r.term := |r.log|])],
       reigns := s.reigns[r.term := Reign(n, r.log)])
  }

  function ProposeStep(s: Cluster, n: NodeId, key: string, value: string): Cluster
    requires n in s.members
  {
    var m := s.members[n];
    var r := AppendOwn(m.replica, key, value);
    s.(members := s.members[n := m.(replica := r, acked := m.acked[r.term := |r.log|])],
       reigns := s.reigns[r.term := Reign(n, r.log)])
  }

  function SendStep(s: Cluster, n: NodeId, f: NodeId): Cluster
    requires n in s.members && CanSend(Rep(s, n), f)
  {
    s.(net := s.net + {BuildAppend(Rep(s, n), f)})
  }

  function DeliverStep(s: Cluster, q: AppendRequest, v: NodeId): Cluster
    requires v in s.members
  {
    var m := s.members[v];
    var (r, success) := HandleAppend(m.replica, q);
    var end := q.prevLogIndex + |q.entries|;
    var acked := if success && Ack(s, v, q.term) < end then m.acked[q.term := end] else m.acked;
    s.(members := s.members[v := m.(replica := r, acked := acked)])
  }

  /** Send, deliver and process the reply without another step in between. */
  function ExchangeStep(s: Cluster, n: NodeId, f: NodeId): Cluster
    requires CanExchange(s, n, f)
  {
    var q := BuildAppend(Rep(s, n), f);
    var delivered := DeliverStep(SendStep(s, n, f), q, f);
    SetReplica(delivered, n, HandleAppendReply(Rep(s, n), f, HandleAppend(Rep(s, f), q).1))
  }

  // --------------------------------------------------------------------- runs

  /** A run: the states passed through and the actions taken between them. */
  ghost predicate IsRun(ids: set<NodeId>, states: seq<Cluster>, actions: seq<Action>, checked: bool) {
    IsPath(Init(ids), states, actions, checked)
  }

  ghost predicate IsPath(start: Cluster, states: seq<Cluster>, actions: seq<Action>, checked: bool) {
    && |states| == |actions| + 1
    && states[0] == start
    && forall i :: 0 <= i < |actions| ==>
         Enabled(states[i], actions[i], checked) && states[i + 1] == Step(states[i], actions[i], checked)
  }
}

/** One replica as a value, and what each operation of the program does to it.
    The class in RaftNode.dfy is proved to compute these functions; the cluster
    model takes its steps with them. */
module Replicas {
  import opened Types
  import opened Logs

  datatype Replica = Replica(
    id: NodeId,
    peers: set<NodeId>,
    role: Role,
    term: nat,
    votedFor: Option<NodeId>,
    log: Log,
    commitIndex: nat,
    lastApplied: nat,
    table: KvTable,
    nextIndex: map<NodeId, nat>,
    matchIndex: map<NodeId, nat>)

  function Fresh(id: NodeId, peers: set<NodeId>): Replica {
    Replica(id, peers, Follower, 0, None, [], 0, 0, map[], map[], map[])
  }

  /** The index ordering every run is meant to keep. */
  predicate Ordered(r: Replica) {
    r.lastApplied <= r.commitIndex <= |r.log|
  }

  // ---------------------------------------------------------------- elections

  function StepDown(r: Replica, term: nat): Replica {
    r.(role := Follower, term := term, votedFor := None)
  }

  function StartElection(r: Replica): Replica {
    r.(role := Candidate, term := r.term + 1, votedFor := Some(r.id))
  }

  function BallotOf(r: Replica): VoteRequest {
    VoteRequest(r.term, r.id, |r.log|, LastTerm(r.log))
  }

  function HandleVoteReply(r: Replica, reply: VoteReply): (Replica, bool) {
    if reply.term > r.term then (StepDown(r, reply.term), false)
    else (r, reply.voteGranted)
  }

  /** The self-vote is added to the grants; `peers` does not contain the node
      itself. */
  predicate IsQuorumCount(peers: set<NodeId>, count: nat) {
    count > |peers| / 2
  }

  /** The map with every key of `keys` set to `index`. */
  function SetAll(m: map<NodeId, nat>, keys: set<NodeId>, index: nat): map<NodeId, nat> {
    map f | f in m.Keys + keys :: if f in keys then index else m[f]
  }

  lemma SetAllNone(m: map<NodeId, nat>, index: nat)
    ensures SetAll(m, {}, index) == m
  {
  }

  lemma SetAllAdd(m: map<NodeId, nat>, keys: set<NodeId>, key: NodeId, index: nat)
    ensures SetAll(m, keys, index)[key := index] == SetAll(m, keys + {key}, index)
  {
  }

  function BecomeLeader(r: Replica): Replica {
    r.(role := Leader,
       nextIndex := SetAll(r.nextIndex, r.peers, |r.log| + 1),
       matchIndex := SetAll(r.matchIndex, r.peers, 0))
  }

  // ----------------------------------------------------------- commit and apply

  function ApplyCommitted(r: Replica): Replica
    requires r.commitIndex <= |r.log|
  {
    if r.lastApplied < r.commitIndex then
      r.(lastApplied := r.commitIndex,
         table := ApplyAll(r.table, r.log[r.lastApplied..r.commitIndex]))
    else r
  }

  function CommitTo(r: Replica, index: nat): Replica
    requires index <= |r.log|
  {
    ApplyCommitted(r.(commitIndex := index))
  }

  function ReplicationCount(matchIndex: map<NodeId, nat>, n: nat): nat {
    1 + |set f | f in matchIndex && matchIndex[f] >= n|
  }

  /** The leader may commit index n by counting. */
  predicate Committable(r: Replica, n: nat) {
    && r.commitIndex < n <= |r.log|
    && r.log[n - 1].term == r.term
    && IsQuorumCount(r.peers, ReplicationCount(r.matchIndex, n))
  }

  /** The greatest committable index up to `hi`, or the commit index when there
      is none. Searched from the top; the program searches from the bottom. */
  function HighestCommittable(r: Replica, hi: nat): (c: nat)
    requires hi <= |r.log|
    ensures c == r.commitIndex || (Committable(r, c) && c <= hi)
    ensures forall n: nat :: n <= hi && Committable(r, n) ==> n <= c
    ensures r.commitIndex <= c
  {
    if hi <= r.commitIndex then r.commitIndex
    else if Committable(r, hi) then hi
    else HighestCommittable(r, hi - 1)
  }

  /** Committing only moves forward; an index that is already committed
      triggers no application either. */
  function Advance(r: Replica, c: nat): Replica
    requires c <= |r.log| || c <= r.commitIndex
  {
    if c > r.commitIndex then CommitTo(r, c) else r
  }

  function CommitUpTo(r: Replica, hi: nat): Replica
    requires hi <= |r.log|
  {
    Advance(r, HighestCommittable(r, hi))
  }

  function UpdateCommit(r: Replica): Replica {
    CommitUpTo(r, |r.log|)
  }

  // -------------------------------------------------------------- replication

  function NextFor(r: Replica, follower: NodeId): nat {
    if follower in r.nextIndex then r.nextIndex[follower] else 1
  }

  /** The entry before the slice to send exists, if there is meant to be one. */
  predicate CanSend(r: Replica, follower: NodeId) {
    1 <= NextFor(r, follower) <= |r.log| + 1
  }

  function BuildAppend(r: Replica, follower: NodeId): AppendRequest
    requires CanSend(r, follower)
  {
    var prev := NextFor(r, follower) - 1;
    AppendRequest(r.term, follower, prev, PrevTerm(r.log, prev), r.log[prev..], r.commitIndex)
  }

  predicate PrevMatches(log: Log, q: AppendRequest) {
    q.prevLogIndex <= |log| && (q.prevLogIndex > 0 ==> PrevTerm(log, q.prevLogIndex) == q.prevLogTerm)
  }

  /** The receiver before it looks at the log. */
  function AdoptTerm(r: Replica, term: nat): Replica {
    if term > r.term then StepDown(r, term) else r
  }

  function Store(r: Replica, q: AppendRequest): Replica
    requires q.prevLogIndex <= |r.log|
  {
    var stored := r.(log := Merge(r.log, q.prevLogIndex, q.entries));
    if q.leaderCommit > stored.commitIndex then
      CommitTo(stored, if q.leaderCommit <= |stored.log| then q.leaderCommit else |stored.log|)
    else stored
  }

  function HandleAppend(r: Replica, q: AppendRequest): (Replica, bool) {
    if q.term < r.term then (r, false)
    else if !PrevMatches(r.log, q) then (AdoptTerm(r, q.term), false)
    else (Store(AdoptTerm(r, q.term), q), true)
  }

  function HandleAppendReply(r: Replica, follower: NodeId, success: bool): Replica {
    if success then
      UpdateCommit(r.(nextIndex := r.nextIndex[follower := |r.log| + 1],
                      matchIndex := r.matchIndex[follower := |r.log|]))
    else
      var next := NextFor(r, follower);
      r.(nextIndex := r.nextIndex[follower := if next <= 2 then 1 else next - 1])
  }

  function AppendOwn(r: Replica, key: string, value: string): Replica {
    r.(log := r.log + [LogEntry(r.term, key, value)])
  }

  // --------------------------------------------------------------- properties

  /** Committing and applying twice is committing and applying once, so the
      application inside every iteration of the commit loop can be postponed. */
  lemma CommitToTwice(r: Replica, c: nat, n: nat)
    requires c <= n <= |r.log|
    ensures CommitTo(CommitTo(r, c), n) == CommitTo(r, n)
  {
    if r.lastApplied < c {
      var front, back := r.log[r.lastApplied..c], r.log[c..n];
      ApplyAllConcat(r.table, front, back);
      assert front + back == r.log[r.lastApplied..n];
    }
  }

  /** More replicas hold a shorter prefix. */
  lemma ReplicationCountAntitone(matchIndex: map<NodeId, nat>, m: nat, n: nat)
    requires m <= n
    ensures ReplicationCount(matchIndex, n) <= ReplicationCount(matchIndex, m)
  {
    var holdsN := set f | f in matchIndex && matchIndex[f] >= n;
    var holdsM := set f | f in matchIndex && matchIndex[f] >= m;
    SubsetCardinality(holdsN, holdsM);
  }

  lemma {:induction false} SubsetCardinality<T>(a: set<T>, b: set<T>)
    requires a <= b
    ensures |a| <= |b|
    decreases |a|
  {
    if a != {} {
      var x :| x in a;
      SubsetCardinality(a - {x}, b - {x});
    }
  }

  /** A node sending to itself, as the program's call is written, accepts its
      own slice and changes nothing. */
  lemma SelfSendChangesNothing(r: Replica, follower: NodeId)
    requires CanSend(r, follower)
    ensures HandleAppend(r, BuildAppend(r, follower)) == (r, true)
  {
    var q := BuildAppend(r, follower);
    MergeOwnSlice(r.log, q.prevLogIndex);
    assert Store(r, q) == r;
  }
}

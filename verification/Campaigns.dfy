/** Runs built step by step: a node is elected with given votes, and a leader
    commits its first entry with given followers. */
module Campaigns {
  import opened Types
  import opened Logs
  import opened Replicas
  import opened Quorums
  import opened Clusters
  import opened BaseSteps
  import opened Safety

  /** Actions lead from one state to the other. */
  ghost predicate Reaches(start: Cluster, s: Cluster, checked: bool) {
    exists states: seq<Cluster>, actions: seq<Action> ::
      IsPath(start, states, actions, checked) && states[|states| - 1] == s
  }

  lemma ReachesSelf(s: Cluster, checked: bool)
    ensures Reaches(s, s, checked)
  {
    assert IsPath(s, [s], [], checked);
  }

  lemma ReachesStep(start: Cluster, s: Cluster, a: Action, checked: bool)
    requires Reaches(start, s, checked) && Enabled(s, a, checked)
    ensures Reaches(start, Step(s, a, checked), checked)
  {
    hide Step, Enabled;
    var states: seq<Cluster>, actions: seq<Action> :|
      IsPath(start, states, actions, checked) && states[|states| - 1] == s;
    assert IsPath(start, states + [Step(s, a, checked)], actions + [a], checked);
  }

  lemma RunTo(ids: set<NodeId>, s: Cluster, checked: bool) returns (states: seq<Cluster>, actions: seq<Action>)
    requires Reaches(Init(ids), s, checked)
    ensures IsRun(ids, states, actions, checked) && states[|states| - 1] == s
  {
    hide Step, Enabled, Init;
    states, actions :| IsPath(Init(ids), states, actions, checked) && states[|states| - 1] == s;
  }

  ghost predicate Placed(s: Cluster, ids: set<NodeId>, n: NodeId) {
    s.members.Keys == ids && n in ids && Rep(s, n).id == n && Rep(s, n).peers == ids - {n}
  }

  ghost predicate HasLog(s: Cluster, ids: set<NodeId>, n: NodeId, log: Log) {
    Placed(s, ids, n) && Rep(s, n).log == log && Rep(s, n).commitIndex <= |log|
  }

  ghost predicate OthersSame(s: Cluster, s': Cluster, touched: set<NodeId>) {
    && s'.members.Keys == s.members.Keys
    && forall n :: n in s.members && n !in touched ==> s'.members[n] == s.members[n]
  }

  // ------------------------------------------------------------- getting elected

  /** The node can still vote in the term for a candidate with this log. */
  ghost predicate MayVote(s: Cluster, v: NodeId, t: nat, log: Log, checked: bool) {
    && v in s.members && Rep(s, v).term <= t && t !in s.members[v].voted
    && (checked ==> UpToDate(VoteRequest(t, v, |log|, LastTerm(log)), Rep(s, v).log))
  }

  /** The node has voted, and nothing else has happened to it. */
  ghost predicate Voted(s: Cluster, s': Cluster, v: NodeId, t: nat, c: NodeId) {
    && v in s.members && v in s'.members
    && Rep(s', v).id == Rep(s, v).id && Rep(s', v).peers == Rep(s, v).peers
    && Rep(s', v).term == t && Rep(s', v).log == Rep(s, v).log && Rep(s', v).commitIndex == Rep(s, v).commitIndex
    && s'.members[v].voted == s.members[v].voted[t := c] && s'.members[v].granted == s.members[v].granted
    && (Rep(s, v).term < t ==> Rep(s', v).role == Follower)
  }

  ghost predicate Campaigning(s: Cluster, ids: set<NodeId>, c: NodeId, t: nat, log: Log, votes: set<NodeId>) {
    && Placed(s, ids, c) && Rep(s, c).role == Candidate && Rep(s, c).term == t
    && Rep(s, c).log == log && Rep(s, c).commitIndex <= |log|
    && s.members[c].granted == votes && VoteRequest(t, c, |log|, LastTerm(log)) in s.ballots
  }

  lemma GiveVote(start: Cluster, ids: set<NodeId>, s: Cluster, c: NodeId, t: nat, log: Log,
                 votes: set<NodeId>, v: NodeId, checked: bool)
    returns (s': Cluster)
    requires Reaches(start, s, checked) && Campaigning(s, ids, c, t, log, votes)
    requires v in ids && v != c && MayVote(s, v, t, log, checked)
    ensures Reaches(start, s', checked) && Campaigning(s', ids, c, t, log, votes + {v})
    ensures OthersSame(s, s', {c, v}) && Voted(s, s', v, t, c)
    ensures c in s'.members && s'.members[c].voted == s.members[c].voted
  {
    hide Reaches;
    var grant := AnswerVote(VoteRequest(t, c, |log|, LastTerm(log)), v, VoteReply(t, true), true);
    ReachesStep(start, s, grant, checked);
    s' := Step(s, grant, checked);
  }

  lemma {:induction false} GiveVotes(start: Cluster, ids: set<NodeId>, s: Cluster, c: NodeId, t: nat,
                                     log: Log, votes: set<NodeId>,
                                     more: set<NodeId>, checked: bool) returns (s': Cluster)
    requires Reaches(start, s, checked) && Campaigning(s, ids, c, t, log, votes)
    requires c in s.members
    requires more <= ids && c !in more && forall v :: v in more ==> MayVote(s, v, t, log, checked)
    ensures Reaches(start, s', checked) && Campaigning(s', ids, c, t, log, votes + more)
    ensures OthersSame(s, s', more + {c}) && forall v :: v in more ==> Voted(s, s', v, t, c)
    ensures c in s'.members && s'.members[c].voted == s.members[c].voted
    decreases |more|
  {
    hide Reaches, Campaigning, MayVote, Voted, OthersSame;
    if more == {} {
      assert votes + more == votes;
      s' := s;
      SameSame(s);
    } else {
      var v :| v in more;
      var s1 := GiveVote(start, ids, s, c, t, log, votes, v, checked);
      forall w | w in more - {v} ensures MayVote(s1, w, t, log, checked) {
        StillMayVote(s, s1, w, {c, v}, t, log, checked);
      }
      s' := GiveVotes(start, ids, s1, c, t, log, votes + {v}, more - {v}, checked);
      SameTwice(s, s1, s', {c, v}, more - {v} + {c}, more + {c});
      forall w | w in more ensures Voted(s, s', w, t, c) {
        if w == v {
          VoteStays(s, s1, s', v, t, c, more - {v} + {c});
        } else {
          VoteBefore(s, s1, s', w, t, c, {c, v});
        }
      }
      assert votes + {v} + (more - {v}) == votes + more;
    }
  }

  lemma SameSame(s: Cluster)
    ensures forall touched :: OthersSame(s, s, touched)
  {
  }

  lemma SameTwice(s: Cluster, s1: Cluster, s2: Cluster, a: set<NodeId>, b: set<NodeId>, both: set<NodeId>)
    requires OthersSame(s, s1, a) && OthersSame(s1, s2, b) && a <= both && b <= both
    ensures OthersSame(s, s2, both)
  {
  }

  lemma StillMayVote(s: Cluster, s1: Cluster, w: NodeId, touched: set<NodeId>, t: nat, log: Log, checked: bool)
    requires MayVote(s, w, t, log, checked) && OthersSame(s, s1, touched) && w !in touched
    ensures MayVote(s1, w, t, log, checked)
  {
  }

  lemma VoteStays(s: Cluster, s1: Cluster, s2: Cluster, v: NodeId, t: nat, c: NodeId, touched: set<NodeId>)
    requires Voted(s, s1, v, t, c) && OthersSame(s1, s2, touched) && v !in touched
    ensures Voted(s, s2, v, t, c)
  {
  }

  lemma VoteBefore(s: Cluster, s1: Cluster, s2: Cluster, w: NodeId, t: nat, c: NodeId, touched: set<NodeId>)
    requires Voted(s1, s2, w, t, c) && OthersSame(s, s1, touched) && w !in touched
    ensures Voted(s, s2, w, t, c)
  {
  }

  ghost predicate NewLeader(s: Cluster, ids: set<NodeId>, c: NodeId, t: nat, log: Log) {
    && Placed(s, ids, c) && LeaderAtTime(s, c, t) && Rep(s, c).log == log && Rep(s, c).commitIndex <= |log|
    && t in s.reigns && s.reigns[t].leader == c
    && forall f :: f in ids && f != c ==> NextFor(Rep(s, c), f) == |log| + 1
  }

  lemma NewLeaderFacts(s: Cluster, ids: set<NodeId>, c: NodeId, t: nat, log: Log)
    requires NewLeader(s, ids, c, t, log)
    ensures HasLog(s, ids, c, log) && s.members.Keys == ids && Rep(s, c).term == t
  {
  }

  lemma Campaign(start: Cluster, ids: set<NodeId>, s: Cluster, c: NodeId, log: Log,
                 checked: bool) returns (s': Cluster)
    requires Reaches(start, s, checked) && HasLog(s, ids, c, log)
    ensures Reaches(start, s', checked) && Campaigning(s', ids, c, Rep(s, c).term + 1, log, {})
    ensures OthersSame(s, s', {c})
    ensures c in s'.members && s'.members[c].voted == s.members[c].voted[Rep(s, c).term + 1 := c]
  {
    hide Reaches;
    ReachesStep(start, s, Elect(c), checked);
    s' := Step(s, Elect(c), checked);
  }

  lemma WinCampaign(start: Cluster, ids: set<NodeId>, s: Cluster, c: NodeId, t: nat, log: Log,
                    votes: set<NodeId>, checked: bool)
    returns (s': Cluster)
    requires Reaches(start, s, checked) && Campaigning(s, ids, c, t, log, votes) && c !in votes
    requires Majority(ids, votes + {c})
    ensures Reaches(start, s', checked) && NewLeader(s', ids, c, t, log) && OthersSame(s, s', {c})
  {
    hide Reaches, BecomeLeader, Majority;
    QuorumCount(ids, votes, c);
    ReachesStep(start, s, Win(c), checked);
    s' := Step(s, Win(c), checked);
    NewLeaderReplica(Rep(s, c));
  }

  /** A quorum counted without the node itself, among its peers. */
  lemma QuorumCount(ids: set<NodeId>, votes: set<NodeId>, c: NodeId)
    requires Majority(ids, votes + {c}) && c !in votes
    ensures IsQuorumCount(ids - {c}, |votes| + 1)
  {
    assert |votes + {c}| == |votes| + 1;
    assert |ids - {c}| == |ids| - 1;
  }

  lemma NewLeaderReplica(r: Replica)
    ensures
      var r' := BecomeLeader(r);
      && r'.id == r.id && r'.peers == r.peers && r'.role == Leader && r'.term == r.term
      && r'.log == r.log && r'.commitIndex == r.commitIndex
      && forall f :: f in r.peers ==> NextFor(r', f) == |r.log| + 1
  {
  }

  lemma ElectBy(start: Cluster, ids: set<NodeId>, s: Cluster, c: NodeId, t: nat, log: Log,
                voters: set<NodeId>, checked: bool)
    returns (s': Cluster)
    requires Reaches(start, s, checked) && HasLog(s, ids, c, log)
    requires voters <= ids && c !in voters && Majority(ids, voters + {c}) && t == Rep(s, c).term + 1
    requires forall v :: v in voters ==> MayVote(s, v, t, log, checked)
    ensures Reaches(start, s', checked) && NewLeader(s', ids, c, t, log)
    ensures OthersSame(s, s', voters + {c}) && forall v :: v in voters ==> Voted(s, s', v, t, c)
  {
    hide Reaches, Campaigning, NewLeader, Majority, Placed;
    var s1 := Campaign(start, ids, s, c, log, checked);
    s' := GiveVotes(start, ids, s1, c, t, log, {}, voters, checked);
    assert {} + voters == voters;
    s' := WinCampaign(start, ids, s', c, t, log, voters, checked);
  }

  // ----------------------------------------------------------------- committing

  /** The node accepts an entry of the term after `log`. */
  ghost predicate CanFollow(s: Cluster, f: NodeId, log: Log, t: nat) {
    && f in s.members && Rep(s, f).term <= t && |log| <= |Rep(s, f).log|
    && PrevTerm(Rep(s, f).log, |log|) == LastTerm(log)
  }

  /** A leader with one entry after `log`, acknowledged by the nodes in `done`. */
  ghost predicate Collecting(s: Cluster, ids: set<NodeId>, l: NodeId, log: Log, e: LogEntry,
                             done: set<NodeId>, todo: set<NodeId>) {
    && HasLog(s, ids, l, log + [e]) && LeaderAtTime(s, l, e.term)
    && done + todo <= ids && l !in done + todo
    && (forall f :: f in done ==> f in Rep(s, l).matchIndex && Rep(s, l).matchIndex[f] >= |log| + 1)
    && (forall f :: f in todo ==> NextFor(Rep(s, l), f) == |log| + 1 && CanFollow(s, f, log, e.term))
  }

  /** The node has moved to the term with its votes as they were. */
  ghost predicate Followed(s: Cluster, s': Cluster, f: NodeId, t: nat) {
    && f in s.members && f in s'.members
    && Rep(s', f).term == t && s'.members[f].voted == s.members[f].voted
  }

  lemma FirstRequestAccepted(s: Cluster, ids: set<NodeId>, l: NodeId, log: Log, e: LogEntry,
                             done: set<NodeId>, todo: set<NodeId>, f: NodeId)
    requires Collecting(s, ids, l, log, e, done, todo) && f in todo
    ensures CanExchange(s, l, f) && HandleAppend(Rep(s, f), BuildAppend(Rep(s, l), f)).1
    ensures BuildAppend(Rep(s, l), f).term == e.term
  {
    hide Merge, ApplyAll;
  }

  lemma ReplyCollected(r: Replica, f: NodeId)
    requires r.commitIndex <= |r.log|
    ensures
      var r' := HandleAppendReply(r, f, true);
      && r' == r.(nextIndex := r'.nextIndex, matchIndex := r'.matchIndex, commitIndex := r'.commitIndex,
                  lastApplied := r'.lastApplied, table := r'.table)
      && r'.matchIndex == r.matchIndex[f := |r.log|] && r'.nextIndex == r.nextIndex[f := |r.log| + 1]
      && r'.commitIndex <= |r.log|
  {
    hide ApplyAll, Committable;
  }

  lemma AcceptedExchange(s: Cluster, l: NodeId, f: NodeId)
    requires CanExchange(s, l, f) && HandleAppend(Rep(s, f), BuildAppend(Rep(s, l), f)).1
    requires Rep(s, f).term <= BuildAppend(Rep(s, l), f).term
    ensures
      var s' := ExchangeStep(s, l, f);
      && OthersSame(s, s', {l, f}) && Followed(s, s', f, BuildAppend(Rep(s, l), f).term)
      && Rep(s', l) == HandleAppendReply(Rep(s, l), f, true)
  {
    hide HandleAppend, HandleAppendReply, BuildAppend, CanSend;
    DeliverFacts(SendStep(s, l, f), BuildAppend(Rep(s, l), f), f);
  }

  lemma CollectOne(start: Cluster, ids: set<NodeId>, s: Cluster, l: NodeId, log: Log, e: LogEntry,
                   done: set<NodeId>, todo: set<NodeId>, f: NodeId, checked: bool) returns (s': Cluster)
    requires Reaches(start, s, checked) && Collecting(s, ids, l, log, e, done, todo) && f in todo
    ensures Reaches(start, s', checked) && Collecting(s', ids, l, log, e, done + {f}, todo - {f})
    ensures OthersSame(s, s', {l, f}) && Followed(s, s', f, e.term)
  {
    hide Reaches, HandleAppend, HandleAppendReply, BuildAppend, CanSend, ExchangeStep;
    FirstRequestAccepted(s, ids, l, log, e, done, todo, f);
    ReplyCollected(Rep(s, l), f);
    AcceptedExchange(s, l, f);
    ReachesStep(start, s, Exchange(l, f), checked);
    s' := Step(s, Exchange(l, f), checked);
  }

  lemma {:induction false} CollectAll(start: Cluster, ids: set<NodeId>, s: Cluster, l: NodeId, log: Log, e: LogEntry,
                                      done: set<NodeId>, todo: set<NodeId>, checked: bool) returns (s': Cluster)
    requires Reaches(start, s, checked) && Collecting(s, ids, l, log, e, done, todo)
    ensures Reaches(start, s', checked) && Collecting(s', ids, l, log, e, done + todo, {})
    ensures OthersSame(s, s', todo + {l}) && forall f :: f in todo ==> Followed(s, s', f, e.term)
    decreases |todo|
  {
    hide Reaches, Collecting, OthersSame, Followed;
    if todo == {} {
      assert done + todo == done;
      s' := s;
      SameSame(s);
    } else {
      var f :| f in todo;
      CollectingNodes(s, ids, l, log, e, done, todo);
      var s1 := CollectOne(start, ids, s, l, log, e, done, todo, f, checked);
      s' := CollectAll(start, ids, s1, l, log, e, done + {f}, todo - {f}, checked);
      SameTwice(s, s1, s', {l, f}, todo - {f} + {l}, todo + {l});
      forall g | g in todo ensures Followed(s, s', g, e.term) {
        if g == f {
          FollowedStays(s, s1, s', f, e.term, todo - {f} + {l});
        } else {
          FollowedBefore(s, s1, s', g, e.term, {l, f});
        }
      }
      assert done + {f} + (todo - {f}) == done + todo;
    }
  }

  lemma FollowedStays(s: Cluster, s1: Cluster, s2: Cluster, f: NodeId, t: nat, touched: set<NodeId>)
    requires Followed(s, s1, f, t) && OthersSame(s1, s2, touched) && f !in touched
    ensures Followed(s, s2, f, t)
  {
  }

  lemma FollowedBefore(s: Cluster, s1: Cluster, s2: Cluster, f: NodeId, t: nat, touched: set<NodeId>)
    requires Followed(s1, s2, f, t) && OthersSame(s, s1, touched) && f !in touched
    ensures Followed(s, s2, f, t)
  {
  }

  lemma CollectingNodes(s: Cluster, ids: set<NodeId>, l: NodeId, log: Log, e: LogEntry,
                        done: set<NodeId>, todo: set<NodeId>)
    requires Collecting(s, ids, l, log, e, done, todo)
    ensures l !in todo && todo <= s.members.Keys
  {
  }

  /** With a quorum of acknowledgements the entry is committed at the next
      count. */
  lemma CollectedCommits(r: Replica, done: set<NodeId>)
    requires r.log != [] && LastTerm(r.log) == r.term && r.commitIndex <= |r.log|
    requires forall f :: f in done ==> f in r.matchIndex && r.matchIndex[f] >= |r.log|
    requires |done| + 1 > |r.peers| / 2
    ensures UpdateCommit(r).commitIndex == |r.log| && UpdateCommit(r).log == r.log
  {
    hide ApplyAll;
    var holding := set f | f in r.matchIndex && r.matchIndex[f] >= |r.log|;
    SubsetCardinality(done, holding);
    assert r.commitIndex < |r.log| ==> Committable(r, |r.log|);
  }

  ghost predicate HasCommitted(s: Cluster, n: NodeId, log: Log) {
    n in s.members && Rep(s, n).commitIndex == |log| && Rep(s, n).log == log
  }

  lemma ProposeFirst(start: Cluster, ids: set<NodeId>, s: Cluster, l: NodeId, log: Log, e: LogEntry,
                     followers: set<NodeId>, checked: bool)
    returns (s': Cluster)
    requires Reaches(start, s, checked) && NewLeader(s, ids, l, e.term, log)
    requires followers <= ids && l !in followers && forall f :: f in followers ==> CanFollow(s, f, log, e.term)
    ensures Reaches(start, s', checked) && OthersSame(s, s', {l}) && Collecting(s', ids, l, log, e, {}, followers)
  {
    hide Reaches;
    ReachesStep(start, s, Propose(l, e.key, e.value), checked);
    s' := Step(s, Propose(l, e.key, e.value), checked);
    assert Rep(s', l) == AppendOwn(Rep(s, l), e.key, e.value);
  }

  lemma CountAll(start: Cluster, ids: set<NodeId>, s: Cluster, l: NodeId, log: Log, e: LogEntry,
                 followers: set<NodeId>, checked: bool)
    returns (s': Cluster)
    requires Reaches(start, s, checked) && Collecting(s, ids, l, log, e, followers, {})
    requires Majority(ids, followers + {l})
    ensures Reaches(start, s', checked) && OthersSame(s, s', {l})
    ensures HasCommitted(s', l, log + [e])
  {
    hide Reaches, UpdateCommit, Majority;
    QuorumCount(ids, followers, l);
    CollectedCommits(Rep(s, l), followers);
    ReachesStep(start, s, Recount(l), checked);
    s' := Step(s, Recount(l), checked);
  }

  /** The leader proposes an entry, exchanges it with the followers and
      counts. */
  lemma CommitBy(start: Cluster, ids: set<NodeId>, s: Cluster, l: NodeId, log: Log, e: LogEntry,
                 followers: set<NodeId>, checked: bool)
    returns (s': Cluster)
    requires Reaches(start, s, checked) && NewLeader(s, ids, l, e.term, log)
    requires followers <= ids && l !in followers && Majority(ids, followers + {l})
    requires forall f :: f in followers ==> CanFollow(s, f, log, e.term)
    ensures Reaches(start, s', checked) && OthersSame(s, s', followers + {l})
    ensures HasCommitted(s', l, log + [e])
    ensures forall f :: f in followers ==> Followed(s, s', f, e.term)
  {
    hide Reaches, Majority, Collecting, NewLeader;
    var s1 := ProposeFirst(start, ids, s, l, log, e, followers, checked);
    var s2 := CollectAll(start, ids, s1, l, log, e, {}, followers, checked);
    assert {} + followers == followers;
    s' := CountAll(start, ids, s2, l, log, e, followers, checked);
  }

  /** A quorum elects c in the term of e and commits e with it. */
  lemma CommitNext(start: Cluster, ids: set<NodeId>, s: Cluster, c: NodeId, e: LogEntry,
                   voters: set<NodeId>, checked: bool)
    returns (s': Cluster)
    requires Reaches(start, s, checked) && HasLog(s, ids, c, [])
    requires voters <= ids && c !in voters && Majority(ids, voters + {c}) && e.term == Rep(s, c).term + 1
    requires forall v :: v in voters ==> MayVote(s, v, e.term, [], checked)
    ensures Reaches(start, s', checked) && HasCommitted(s', c, [e]) && OthersSame(s, s', voters + {c})
  {
    hide Reaches, Majority, NewLeader, MayVote;
    var s1 := ElectBy(start, ids, s, c, e.term, [], voters, checked);
    NewLeaderFacts(s1, ids, c, e.term, []);
    forall v | v in voters ensures CanFollow(s1, v, [], e.term) {
      assert Voted(s, s1, v, e.term, c);
    }
    s' := CommitBy(start, ids, s1, c, [], e, voters, checked);
  }
}

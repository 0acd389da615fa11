/** Repeated exchanges between a leader and one follower, with nothing else
    going on. */
module CatchUp {
  import opened Types
  import opened Logs
  import opened Replicas
  import opened Clusters
  import opened BaseInvariant
  import opened BaseSteps
  import opened Steps
  import opened Safety
  import opened Delivery

  /** Up to k exchanges in a row. */
  function Exchanges(s: Cluster, l: NodeId, f: NodeId, k: nat): Cluster
    decreases k
  {
    if k == 0 || !CanExchange(s, l, f) then s
    else Exchanges(ExchangeStep(s, l, f), l, f, k - 1)
  }

  /** The follower is in the leader's term with the leader's whole log at the
      beginning of its own, and the leader knows. */
  ghost predicate CaughtUp(s: Cluster, l: NodeId, f: NodeId, log: Log) {
    && l in s.members && f in s.members
    && Rep(s, l).log == log && log <= Rep(s, f).log
    && Rep(s, l).role == Leader && Rep(s, f).term == Rep(s, l).term
    && f in Rep(s, l).matchIndex && Rep(s, l).matchIndex[f] == |log|
    && NextFor(Rep(s, l), f) == |log| + 1
  }

  lemma ReplyFacts(r: Replica, f: NodeId, success: bool)
    ensures
      var r' := HandleAppendReply(r, f, success);
      && r'.role == r.role && r'.term == r.term && r'.log == r.log
      && (success ==> f in r'.matchIndex && r'.matchIndex[f] == |r.log| && NextFor(r', f) == |r.log| + 1)
      && (!success && NextFor(r, f) >= 2 ==> NextFor(r', f) == NextFor(r, f) - 1)
  {
    hide UpdateCommit;
    UpdateCommitFacts(r.(nextIndex := r.nextIndex[f := |r.log| + 1], matchIndex := r.matchIndex[f := |r.log|]));
  }

  /** One exchange with a follower of no higher term either succeeds or moves the
      next index down by one, and it cannot fail at the first index. */
  lemma OneExchange(s: Cluster, l: NodeId, f: NodeId)
    requires Base(s) && CanExchange(s, l, f) && Rep(s, f).term <= Rep(s, l).term
    ensures
      var s' := ExchangeStep(s, l, f);
      && Base(s') && CanExchange(s', l, f)
      && Rep(s', l).term == Rep(s, l).term == Rep(s', f).term && Rep(s', l).log == Rep(s, l).log
      && (CaughtUp(s', l, f, Rep(s, l).log) || NextFor(Rep(s', l), f) == NextFor(Rep(s, l), f) - 1)
  {
    hide Base, HandleAppend, HandleAppendReply, CanSend, Merge;
    var q := BuildAppend(Rep(s, l), f);
    var success := HandleAppend(Rep(s, f), q).1;
    LeaderCanSend(s, l, f);
    ExchangeKeeps(s, l, f);
    ExchangeFacts(s, l, f);
    LeaderCanSend(ExchangeStep(s, l, f), l, f);
    AcceptedOrNot(Rep(s, f), q);
    if success {
      WholeLogStored(s, l, f);
    }
  }

  lemma LeaderCanSend(s: Cluster, l: NodeId, f: NodeId)
    requires Base(s) && l in s.members && Rep(s, l).role == Leader && f in s.members && f != l
    ensures CanSend(Rep(s, l), f)
  {
    assert MatchOk(s, Rep(s, l), f);
  }

  lemma ExchangeFacts(s: Cluster, l: NodeId, f: NodeId)
    requires Base(s) && CanExchange(s, l, f) && Rep(s, f).term <= Rep(s, l).term
    ensures
      var s' := ExchangeStep(s, l, f);
      var q := BuildAppend(Rep(s, l), f);
      && l in s'.members && f in s'.members
      && Rep(s', l) == HandleAppendReply(Rep(s, l), f, HandleAppend(Rep(s, f), q).1)
      && Rep(s', f) == HandleAppend(Rep(s, f), q).0
      && Rep(s', l).role == Leader && Rep(s', l).term == Rep(s, l).term == Rep(s', f).term
      && Rep(s', l).log == Rep(s, l).log
      && (if HandleAppend(Rep(s, f), q).1 then
            && f in Rep(s', l).matchIndex && Rep(s', l).matchIndex[f] == |Rep(s, l).log|
            && NextFor(Rep(s', l), f) == |Rep(s, l).log| + 1
          else NextFor(Rep(s, l), f) >= 2 ==> NextFor(Rep(s', l), f) == NextFor(Rep(s, l), f) - 1)
  {
    hide Base, HandleAppend, HandleAppendReply, CanSend, Merge;
    var q := BuildAppend(Rep(s, l), f);
    ReplyFacts(Rep(s, l), f, HandleAppend(Rep(s, f), q).1);
    DeliverFacts(SendStep(s, l, f), q, f);
  }

  /** A success means the follower's log begins with the leader's. */
  lemma WholeLogStored(s: Cluster, l: NodeId, f: NodeId)
    requires Base(s) && CanExchange(s, l, f)
    requires HandleAppend(Rep(s, f), BuildAppend(Rep(s, l), f)).1
    ensures Rep(s, l).log <= HandleAppend(Rep(s, f), BuildAppend(Rep(s, l), f)).0.log
  {
    hide LogsOk, NetOk, AcksOk, Bookkept, LeadersOk, ReignsOk, VotesOk, CandidatesOk, BallotsOk, HandleAppend, Merge;
    SendBase(s, l, f);
    LeaderAt(s, l);
    SentIsStored(SendStep(s, l, f), BuildAppend(Rep(s, l), f), f);
  }

  lemma AcceptedOrNot(r: Replica, q: AppendRequest)
    ensures HandleAppend(r, q).1 <==> Accepts(r, q)
  {
    hide Merge, ApplyAll;
  }

  lemma {:induction false} CatchUpFrom(s: Cluster, l: NodeId, f: NodeId) returns (k: nat)
    requires Base(s) && CanExchange(s, l, f) && Rep(s, f).term <= Rep(s, l).term
    ensures 1 <= k <= NextFor(Rep(s, l), f)
    ensures CaughtUp(Exchanges(s, l, f, k), l, f, Rep(s, l).log)
    decreases NextFor(Rep(s, l), f)
  {
    hide Base, ExchangeStep, CaughtUp;
    var s' := ExchangeStep(s, l, f);
    OneExchange(s, l, f);
    if CaughtUp(s', l, f, Rep(s, l).log) {
      k := 1;
      assert Exchanges(s', l, f, 0) == s';
    } else {
      k := CatchUpFrom(s', l, f);
      k := k + 1;
    }
  }

  /** From any state of a run, a leader brings a follower whose term is not
      higher up to date within as many exchanges as its next index says. */
  lemma CatchUpTerminates(ids: set<NodeId>, states: seq<Cluster>, actions: seq<Action>, checked: bool,
                          i: nat, l: NodeId, f: NodeId)
    requires |ids| % 2 == 1 && IsRun(ids, states, actions, checked) && i < |states|
    requires l in states[i].members && Rep(states[i], l).role == Leader
    requires f in states[i].members && f != l && Rep(states[i], f).term <= Rep(states[i], l).term
    ensures exists k :: 1 <= k <= NextFor(Rep(states[i], l), f)
              && CaughtUp(Exchanges(states[i], l, f, k), l, f, Rep(states[i], l).log)
  {
    hide IsRun, Base, CaughtUp, Exchanges;
    RunKeeps(ids, states, actions, checked, i);
    MatchIndexSound(ids, states, actions, checked, i, l, f);
    var k := CatchUpFrom(states[i], l, f);
  }
}

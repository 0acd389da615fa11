/** The invariant over every action and every run. */
module Steps {
  import opened Types
  import opened Logs
  import opened Replicas
  import opened Clusters
  import opened BaseInvariant
  import opened BaseSteps
  import opened SafeInvariant
  import opened SafeSteps

  lemma GrowsTransitive(s0: Cluster, s1: Cluster, s2: Cluster)
    requires Grows(s0, s1) && Grows(s1, s2)
    ensures Grows(s0, s2)
  {
    forall n | n in s0.members ensures MemberGrows(s0.members[n], s2.members[n]) {
      assert MemberGrows(s0.members[n], s1.members[n]) && MemberGrows(s1.members[n], s2.members[n]);
    }
  }

  lemma GrowsReflexive(s: Cluster)
    ensures Grows(s, s)
  {
  }

  // ------------------------------------------------------------ compound actions

  lemma AnswerKeeps(s: Cluster, ballot: VoteRequest, v: NodeId, reply: VoteReply, received: bool, checked: bool)
    requires Base(s) && Enabled(s, AnswerVote(ballot, v, reply, received), checked)
    ensures Base(Step(s, AnswerVote(ballot, v, reply, received), checked))
    ensures Grows(s, Step(s, AnswerVote(ballot, v, reply, received), checked))
    ensures checked && Safe(s) ==> Safe(Step(s, AnswerVote(ballot, v, reply, received), checked))
  {
    hide Grows, Safe, StepOf, Replicated, Bookkept, CandidatesOk, LeadersOk, ReignsOk, VotesOk, Shape;
    hide VotesStep, RoundStep, LeaderStep, ReignStep, BallotStep;
    var voted := VoterStep(s, ballot, v, reply);
    var after := CandidateStep(voted, ballot, v, reply);
    VoterBase(s, ballot, v, reply);
    VoterElectoral(s, ballot, v, reply);
    StepGrows(s, voted, v);
    if checked && Safe(s) {
      VoterSafe(s, ballot, v, reply);
    }
    if received {
      CandidateBase(voted, ballot, v, reply);
      CandidateElectoral(voted, ballot, v, reply);
      StepGrows(voted, after, ballot.candidateId);
      GrowsTransitive(s, voted, after);
      if checked && Safe(s) {
        CandidateSafe(voted, ballot, v, reply);
      }
    }
  }

  /** An exchange is a delivery of a freshly built request followed by the
      processing of the reply. */
  lemma ExchangeParts(s: Cluster, n: NodeId, f: NodeId)
    requires LeadersOk(s) && CanExchange(s, n, f)
    ensures
      var q := BuildAppend(Rep(s, n), f);
      var sent := SendStep(s, n, f);
      && Enabled(sent, Deliver(q, f), true)
      && var delivered := DeliverStep(sent, q, f);
         var success := HandleAppend(Rep(s, f), q).1;
         && n in delivered.members && f in delivered.members && n != f
         && Rep(delivered, n) == Rep(s, n)
         && (success ==> |Rep(s, n).log| <= Ack(delivered, f, Rep(s, n).term))
         && ExchangeStep(s, n, f) == SetReplica(delivered, n, HandleAppendReply(Rep(delivered, n), f, success))
  {
    hide StepOf, HandleAppendReply, SetReplica, Merge;
    DeliverFacts(SendStep(s, n, f), BuildAppend(Rep(s, n), f), f);
  }

  lemma ExchangeKeeps(s: Cluster, n: NodeId, f: NodeId)
    requires Base(s) && CanExchange(s, n, f)
    ensures Base(ExchangeStep(s, n, f)) && Grows(s, ExchangeStep(s, n, f))
    ensures Safe(s) ==> Safe(ExchangeStep(s, n, f))
  {
    hide Grows, Safe, StepOf, Shape, VotesOk, CandidatesOk, ReignsOk, BallotsOk, Replicated, Bookkept, LeadersOk;
    hide ExchangeStep, DeliverStep, SendStep, HandleAppend, HandleAppendReply, SetReplica, BuildAppend;
    var q := BuildAppend(Rep(s, n), f);
    var sent := SendStep(s, n, f);
    ExchangeParts(s, n, f);
    var delivered := DeliverStep(sent, q, f);
    var success := HandleAppend(Rep(s, f), q).1;
    SendBase(s, n, f);
    SendStepOk(s, n, f);
    StepGrows(s, sent, n);
    DeliverBase(sent, q, f);
    DeliverFacts(sent, q, f);
    StepGrows(sent, delivered, f);
    GrowsTransitive(s, sent, delivered);
    ReplyBase(delivered, n, f, success);
    StepGrows(delivered, ExchangeStep(s, n, f), n);
    GrowsTransitive(s, delivered, ExchangeStep(s, n, f));
    if Safe(s) {
      SendSafe(s, n, f);
      DeliverSafe(sent, q, f);
      ReplySafe(delivered, n, f, success);
    }
  }

  // ---------------------------------------------------------------- every action

  lemma ActionKeeps(s: Cluster, a: Action, checked: bool)
    requires Base(s) && Enabled(s, a, checked)
    ensures Base(Step(s, a, checked)) && Grows(s, Step(s, a, checked))
    ensures checked && Safe(s) ==> Safe(Step(s, a, checked))
  {
    hide Safe, Grows, StepOf, Replicated, Bookkept, Shape, VotesOk, CandidatesOk, ReignsOk, BallotsOk, LeadersOk;
    match a
    case Elect(n) => ElectKeeps(s, n);
    case AnswerVote(ballot, v, reply, received) => AnswerKeeps(s, ballot, v, reply, received, checked);
    case Win(n) => WinKeeps(s, n);
    case Propose(n, key, value) => ProposeKeeps(s, n, key, value);
    case Send(n, f) => SendKeeps(s, n, f);
    case Deliver(q, v) => DeliverKeeps(s, q, v);
    case Exchange(n, f) => ExchangeKeeps(s, n, f);
    case Reply(n, f, success) => ReplyKeeps(s, n, f, success);
    case Recount(n) => RecountKeeps(s, n);
  }

  lemma ElectKeeps(s: Cluster, n: NodeId)
    requires Base(s) && n in s.members
    ensures Base(ElectStep(s, n)) && Grows(s, ElectStep(s, n))
    ensures Safe(s) ==> Safe(ElectStep(s, n))
  {
    hide Safe, Grows, StepOf, Replicated, Bookkept, VotesOk, CandidatesOk, ReignsOk, BallotsOk, LeadersOk, ElectStep;
    ElectBase(s, n);
    ElectElectoral(s, n);
    StepGrows(s, ElectStep(s, n), n);
    if Safe(s) {
      ElectSafe(s, n);
    }
  }

  lemma WinKeeps(s: Cluster, n: NodeId)
    requires Base(s) && Enabled(s, Win(n), false)
    ensures Base(WinStep(s, n)) && Grows(s, WinStep(s, n))
    ensures Safe(s) ==> Safe(WinStep(s, n))
  {
    hide Safe, Grows, StepOf, LogsOk, NetOk, AcksOk, Bookkept, Shape, VotesOk, CandidatesOk, ReignsOk, BallotsOk, LeadersOk, WinStep;
    WinnerIsFirst(s, n);
    WinBase(s, n);
    WinGrows(s, n);
    StepGrows(s, WinStep(s, n), n);
    if Safe(s) {
      WinSafe(s, n);
    }
  }

  lemma ProposeKeeps(s: Cluster, n: NodeId, key: string, value: string)
    requires Base(s) && n in s.members && Rep(s, n).role == Leader
    ensures Base(ProposeStep(s, n, key, value)) && Grows(s, ProposeStep(s, n, key, value))
    ensures Safe(s) ==> Safe(ProposeStep(s, n, key, value))
  {
    hide Safe, Grows, StepOf, LogsOk, NetOk, AcksOk, Bookkept, Shape, VotesOk, CandidatesOk, ReignsOk, BallotsOk, LeadersOk, ProposeStep;
    ProposeBase(s, n, key, value);
    ProposeStepOf(s, n, key, value);
    if Safe(s) {
      ProposeSafe(s, n, key, value);
    }
  }

  lemma SendKeeps(s: Cluster, n: NodeId, f: NodeId)
    requires Base(s) && CanExchange(s, n, f)
    ensures Base(SendStep(s, n, f)) && Grows(s, SendStep(s, n, f))
    ensures Safe(s) ==> Safe(SendStep(s, n, f))
  {
    hide Safe, Grows, StepOf, SendStep, CanSend, Replicated, Bookkept, VotesOk, CandidatesOk, ReignsOk, BallotsOk, LeadersOk;
    SendBase(s, n, f);
    SendStepOk(s, n, f);
    StepGrows(s, SendStep(s, n, f), n);
    if Safe(s) {
      SendSafe(s, n, f);
    }
  }

  lemma DeliverKeeps(s: Cluster, q: AppendRequest, v: NodeId)
    requires Base(s) && Enabled(s, Deliver(q, v), true)
    ensures Base(DeliverStep(s, q, v)) && Grows(s, DeliverStep(s, q, v))
    ensures Safe(s) ==> Safe(DeliverStep(s, q, v))
  {
    hide Base, Safe, Grows, StepOf, DeliverStep;
    DeliverBase(s, q, v);
    DeliverFacts(s, q, v);
    StepGrows(s, DeliverStep(s, q, v), v);
    if Safe(s) {
      DeliverSafe(s, q, v);
    }
  }

  lemma ReplyKeeps(s: Cluster, n: NodeId, f: NodeId, success: bool)
    requires Base(s) && Enabled(s, Reply(n, f, success), true)
    ensures
      var s' := SetReplica(s, n, HandleAppendReply(Rep(s, n), f, success));
      Base(s') && Grows(s, s') && (Safe(s) ==> Safe(s'))
  {
    hide Base, Safe, Grows, StepOf, SetReplica, HandleAppendReply;
    ReplyBase(s, n, f, success);
    StepGrows(s, SetReplica(s, n, HandleAppendReply(Rep(s, n), f, success)), n);
    if Safe(s) {
      ReplySafe(s, n, f, success);
    }
  }

  lemma RecountKeeps(s: Cluster, n: NodeId)
    requires Base(s) && n in s.members && Rep(s, n).role == Leader
    ensures
      var s' := SetReplica(s, n, UpdateCommit(Rep(s, n)));
      Base(s') && Grows(s, s') && (Safe(s) ==> Safe(s'))
  {
    hide Base, Safe, Grows, StepOf, SetReplica, UpdateCommit;
    RecountBase(s, n);
    StepGrows(s, SetReplica(s, n, UpdateCommit(Rep(s, n))), n);
    if Safe(s) {
      RecountSafe(s, n);
    }
  }

  // ------------------------------------------------------------------- every run

  lemma {:induction false} RunKeeps(ids: set<NodeId>, states: seq<Cluster>, actions: seq<Action>, checked: bool, i: nat)
    requires |ids| % 2 == 1 && IsRun(ids, states, actions, checked) && i < |states|
    ensures Base(states[i])
    ensures checked ==> Safe(states[i])
  {
    hide Base, Safe, Grows, Step, Enabled, Init;
    if i == 0 {
      InitBase(ids);
      InitSafe(ids);
    } else {
      RunKeeps(ids, states, actions, checked, i - 1);
      assert states[i - 1 + 1] == Step(states[i - 1], actions[i - 1], checked);
      ActionKeeps(states[i - 1], actions[i - 1], checked);
    }
  }

  lemma {:induction false} RunGrows(ids: set<NodeId>, states: seq<Cluster>, actions: seq<Action>, checked: bool, i: nat, j: nat)
    requires |ids| % 2 == 1 && IsRun(ids, states, actions, checked) && i <= j < |states|
    ensures Grows(states[i], states[j])
    decreases j - i
  {
    hide Base, Safe, Grows, Step, Enabled, Init;
    if i == j {
      GrowsReflexive(states[i]);
    } else {
      RunGrows(ids, states, actions, checked, i, j - 1);
      RunKeeps(ids, states, actions, checked, j - 1);
      assert states[j - 1 + 1] == Step(states[j - 1], actions[j - 1], checked);
      ActionKeeps(states[j - 1], actions[j - 1], checked);
      GrowsTransitive(states[i], states[j - 1], states[j]);
    }
  }
}

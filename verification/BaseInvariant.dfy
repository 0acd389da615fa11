/** The part of the invariant that does not need the voters' up-to-date check:
    one leader per term, log matching, acknowledged prefixes. */
module BaseInvariant {
  import opened Types
  import opened Logs
  import opened Replicas
  import opened Quorums
  import opened Clusters

  /** `nodes` an odd number, so an even number of peers. */
  ghost predicate Shape(s: Cluster) {
    && |s.members| % 2 == 1
    && forall n :: n in s.members ==> Rep(s, n).id == n && Rep(s, n).peers == s.members.Keys - {n}
  }

  function Voters(s: Cluster, term: nat, candidate: NodeId): set<NodeId> {
    set v | v in s.members && VotedFor(s, v, term, candidate)
  }

  /** A vote is for a node of the cluster, and neither end has a smaller term
      than the vote. */
  ghost predicate VotesOk(s: Cluster) {
    forall v, t :: v in s.members && t in s.members[v].voted ==> VoteOk(s, t, v, s.members[v].voted[t])
  }

  ghost predicate VoteOk(s: Cluster, t: nat, v: NodeId, c: NodeId)
    requires v in s.members
  {
    t <= Rep(s, v).term && c in s.members && t <= Rep(s, c).term
  }

  /** Counted votes were cast. */
  ghost predicate CandidatesOk(s: Cluster) {
    forall c :: c in s.members && Rep(s, c).role == Candidate ==> CandidateOk(s, c)
  }

  ghost predicate CandidateOk(s: Cluster, c: NodeId)
    requires c in s.members
  {
    && VotedFor(s, c, Rep(s, c).term, c)
    && forall g :: g in s.members[c].granted ==> g != c && VotedFor(s, g, Rep(s, c).term, c)
  }

  ghost predicate LeadersOk(s: Cluster) {
    forall n :: n in s.members && Rep(s, n).role == Leader ==>
      Rep(s, n).term in s.reigns && s.reigns[Rep(s, n).term].leader == n
  }

  /** A reign was won with a majority, and its log is the leader's for as long
      as the leader stays in its term. */
  ghost predicate ReignsOk(s: Cluster) {
    forall t :: t in s.reigns ==> ReignOk(s, t, s.reigns[t].leader)
  }

  ghost predicate ReignOk(s: Cluster, t: nat, l: NodeId)
    requires t in s.reigns
  {
    && l in s.members && t <= Rep(s, l).term
    && Majority(s.members.Keys, Voters(s, t, l))
    && (t == Rep(s, l).term ==> Rep(s, l).role == Leader && Rep(s, l).log == s.reigns[t].log)
  }

  ghost predicate CanonAt(reigns: map<nat, Reign>, log: Log, i: int)
    requires 0 <= i < |log|
  {
    log[i].term in reigns && log[..i + 1] <= reigns[log[i].term].log
  }

  /** Every prefix of the log that ends in an entry of some term is a prefix of
      the log of that term's leader. */
  ghost predicate Canon(reigns: map<nat, Reign>, log: Log) {
    forall i :: 0 <= i < |log| ==> CanonAt(reigns, log, i)
  }

  ghost predicate TermsUpTo(log: Log, term: nat) {
    forall i :: 0 <= i < |log| ==> log[i].term <= term
  }

  ghost predicate LogOk(reigns: map<nat, Reign>, log: Log, term: nat) {
    Canon(reigns, log) && TermsUpTo(log, term)
  }

  ghost predicate LogsOk(s: Cluster) {
    && (forall n :: n in s.members ==> LogOk(s.reigns, Rep(s, n).log, Rep(s, n).term))
    && (forall t :: t in s.reigns ==> LogOk(s.reigns, s.reigns[t].log, t))
  }

  /** The request carries entries of `log` from its previous index on. */
  ghost predicate SliceOf(q: AppendRequest, log: Log) {
    && q.prevLogIndex + |q.entries| <= |log|
    && q.entries == log[q.prevLogIndex..q.prevLogIndex + |q.entries|]
    && q.prevLogTerm == PrevTerm(log, q.prevLogIndex)
  }

  ghost predicate NetOk(s: Cluster) {
    forall q :: q in s.net ==> q.term in s.reigns && SliceOf(q, s.reigns[q.term].log)
  }

  /** What a node has accepted in a term is part of that leader's log, and while
      the node stays in the term it is the beginning of its own. */
  ghost predicate AcksOk(s: Cluster) {
    forall v, t :: v in s.members && t in s.members[v].acked ==> AckOk(s, v, t, s.members[v].acked[t])
  }

  ghost predicate AckOk(s: Cluster, v: NodeId, t: nat, m: nat)
    requires v in s.members
  {
    && t in s.reigns && t <= Rep(s, v).term
    && m <= |s.reigns[t].log|
    && (t == Rep(s, v).term ==> s.reigns[t].log[..m] <= Rep(s, v).log)
  }

  /** The log of a candidate in a term without a leader is still the one its
      vote requests describe. */
  ghost predicate BallotsOk(s: Cluster) {
    forall b :: b in s.ballots ==> b.candidateId in s.members && BallotOk(s, b, Rep(s, b.candidateId))
  }

  ghost predicate BallotOk(s: Cluster, b: VoteRequest, r: Replica) {
    && b.term <= r.term
    && (r.role == Candidate && b.term == r.term && b.term !in s.reigns ==>
          b.lastLogIndex == |r.log| && b.lastLogTerm == LastTerm(r.log))
  }

  /** A leader's bookkeeping never overstates what a peer has accepted. */
  ghost predicate MatchesOk(s: Cluster) {
    forall n, f :: n in s.members && Rep(s, n).role == Leader && f in s.members && f != n ==>
      MatchOk(s, Rep(s, n), f)
  }

  ghost predicate MatchOk(s: Cluster, r: Replica, f: NodeId)
    requires f in s.members
  {
    && f in r.matchIndex && CanSend(r, f)
    && r.matchIndex[f] <= Ack(s, f, r.term)
  }

  /** Only peers are counted besides the leader itself, which has all of its
      own log. */
  ghost predicate CountsOk(s: Cluster) {
    forall n :: n in s.members ==>
      && Rep(s, n).matchIndex.Keys <= Rep(s, n).peers
      && (Rep(s, n).role == Leader ==> |Rep(s, n).log| <= Ack(s, n, Rep(s, n).term))
  }

  ghost predicate Electoral(s: Cluster) {
    Shape(s) && VotesOk(s) && CandidatesOk(s) && LeadersOk(s) && ReignsOk(s) && BallotsOk(s)
  }

  ghost predicate Replicated(s: Cluster) {
    LogsOk(s) && NetOk(s) && AcksOk(s)
  }

  ghost predicate Bookkept(s: Cluster) {
    MatchesOk(s) && CountsOk(s)
  }

  ghost predicate Base(s: Cluster) {
    Electoral(s) && Replicated(s) && Bookkept(s)
  }

  // ------------------------------------------------------------- log matching

  /** Equal terms at an index mean equal logs up to it. */
  lemma CanonAgree(reigns: map<nat, Reign>, a: Log, b: Log, i: nat)
    requires Canon(reigns, a) && Canon(reigns, b)
    requires i < |a| && i < |b| && a[i].term == b[i].term
    ensures a[..i + 1] == b[..i + 1]
  {
    assert CanonAt(reigns, a, i) && CanonAt(reigns, b, i);
  }

  /** A log that accepts a slice of a leader's log begins with that log up to the
      end of the slice; if it changed at all, it is exactly that beginning. */
  lemma MergeUnderReign(reigns: map<nat, Reign>, log: Log, prev: nat, end: nat, l: Log)
    requires Canon(reigns, log) && Canon(reigns, l)
    requires prev <= |log| && prev <= end <= |l| && PrevTerm(log, prev) == PrevTerm(l, prev)
    ensures l[..end] <= Merge(log, prev, l[prev..end])
    ensures Merge(log, prev, l[prev..end]) in {log, l[..end]}
  {
    var k := OverlapOfSlice(log, prev, end, l);
    if prev + k > 0 {
      CanonAgree(reigns, log, l, prev + k - 1);
    }
    MergeOfSlice(log, prev, end, l, k);
  }

  // ------------------------------------------------------------------ actions

  /** What every action respects: terms, votes, acknowledgements, reigns and
      their logs only grow, and an acknowledgement is only added for the term
      the node is then in. */
  ghost predicate Grows(s: Cluster, s': Cluster) {
    && s'.members.Keys == s.members.Keys
    && (forall n :: n in s.members ==> MemberGrows(s.members[n], s'.members[n]))
    && ReignsGrow(s.reigns, s'.reigns)
    && s.net <= s'.net && s.ballots <= s'.ballots
  }

  ghost predicate MemberGrows(m: Member, m': Member) {
    && m'.replica.id == m.replica.id && m'.replica.peers == m.replica.peers
    && m.replica.term <= m'.replica.term
    && (forall t :: t in m.voted ==> t in m'.voted && m'.voted[t] == m.voted[t])
    && (forall t :: t in m.acked ==> t in m'.acked && m.acked[t] <= m'.acked[t])
    && (forall t :: t in m'.acked && (t !in m.acked || m.acked[t] < m'.acked[t]) ==> m.replica.term <= t)
  }

  ghost predicate ReignsGrow(reigns: map<nat, Reign>, reigns': map<nat, Reign>) {
    forall t :: t in reigns ==>
      t in reigns' && reigns'[t].leader == reigns[t].leader && reigns[t].log <= reigns'[t].log
  }

  /** The step of one node: the others stay as they are. */
  ghost predicate StepOf(s: Cluster, s': Cluster, v: NodeId) {
    && v in s.members && v in s'.members
    && s'.members == s.members[v := s'.members[v]]
    && MemberGrows(s.members[v], s'.members[v])
    && ReignsGrow(s.reigns, s'.reigns)
    && s.net <= s'.net && s.ballots <= s'.ballots
  }

  lemma StepGrows(s: Cluster, s': Cluster, v: NodeId)
    requires StepOf(s, s', v)
    ensures Grows(s, s')
  {
  }

  lemma VotersGrow(s: Cluster, s': Cluster, t: nat, c: NodeId)
    requires Grows(s, s') && Majority(s.members.Keys, Voters(s, t, c))
    ensures Majority(s'.members.Keys, Voters(s', t, c))
  {
    forall v | v in Voters(s, t, c) ensures v in Voters(s', t, c) {
      assert MemberGrows(s.members[v], s'.members[v]);
    }
    SubsetCardinality(Voters(s, t, c), Voters(s', t, c));
  }

  // What a step of node n has to respect for the electoral invariant. Every
  // condition speaks of that node alone.

  ghost predicate VotesStep(s: Cluster, s': Cluster, n: NodeId)
    requires n in s.members && n in s'.members
  {
    forall t :: t in s'.members[n].voted && t !in s.members[n].voted ==>
      VoteOk(s', t, n, s'.members[n].voted[t])
  }

  ghost predicate RoundStep(s: Cluster, s': Cluster, n: NodeId)
    requires n in s.members && n in s'.members
  {
    Rep(s', n).role == Candidate ==> SameRound(s.members[n], s'.members[n]) || CandidateOk(s', n)
  }

  ghost predicate SameRound(m: Member, m': Member) {
    && m.replica.role == Candidate && m.replica.term == m'.replica.term
    && m.granted == m'.granted
  }

  ghost predicate LeaderStep(s: Cluster, s': Cluster, n: NodeId)
    requires n in s.members && n in s'.members
  {
    Rep(s', n).role == Leader ==>
      || (Rep(s, n).role == Leader && Rep(s', n).term == Rep(s, n).term)
      || (Rep(s', n).term in s'.reigns && s'.reigns[Rep(s', n).term].leader == n)
  }

  ghost predicate ReignStep(s: Cluster, s': Cluster, n: NodeId)
    requires n in s.members && n in s'.members
  {
    && (forall t :: t in s'.reigns && t !in s.reigns ==> ReignOk(s', t, s'.reigns[t].leader))
    && (forall t :: t in s.reigns && t in s'.reigns && s'.reigns[t].log != s.reigns[t].log ==>
          s.reigns[t].leader == n)
    && StaysLeader(s, s', n)
  }

  /** A leader that stays in its term stays its leader, with the reign's log. */
  ghost predicate StaysLeader(s: Cluster, s': Cluster, n: NodeId)
    requires n in s.members && n in s'.members
  {
    var t := Rep(s, n).term;
    Rep(s, n).role == Leader && Rep(s', n).term == t && t in s.reigns ==>
      && Rep(s', n).role == Leader && t in s'.reigns
      && (Rep(s, n).log == s.reigns[t].log ==> Rep(s', n).log == s'.reigns[t].log)
  }

  ghost predicate BallotStep(s: Cluster, s': Cluster, n: NodeId)
    requires n in s.members && n in s'.members
  {
    && (forall b :: b in s'.ballots && b !in s.ballots ==> b.candidateId == n && BallotOk(s', b, Rep(s', n)))
    && (Rep(s', n).role == Candidate && Rep(s', n).term !in s'.reigns ==>
          || Rep(s', n).term > Rep(s, n).term
          || (Rep(s, n).role == Candidate && Rep(s', n).log == Rep(s, n).log))
  }

  lemma ShapeKept(s: Cluster, s': Cluster, n: NodeId)
    requires Shape(s) && StepOf(s, s', n)
    ensures Shape(s')
  {
    assert s'.members.Keys == s.members.Keys;
  }

  lemma VotesKept(s: Cluster, s': Cluster, n: NodeId)
    requires VotesOk(s) && StepOf(s, s', n) && VotesStep(s, s', n)
    ensures VotesOk(s')
  {
    StepGrows(s, s', n);
    forall v, t | v in s'.members && t in s'.members[v].voted
      ensures VoteOk(s', t, v, s'.members[v].voted[t])
    {
      assert MemberGrows(s.members[v], s'.members[v]);
      if t in s.members[v].voted {
        var c := s.members[v].voted[t];
        assert VoteOk(s, t, v, c);
        assert MemberGrows(s.members[c], s'.members[c]);
      }
    }
  }

  lemma CandidatesKept(s: Cluster, s': Cluster, n: NodeId)
    requires CandidatesOk(s) && StepOf(s, s', n) && RoundStep(s, s', n)
    ensures CandidatesOk(s')
  {
    StepGrows(s, s', n);
    forall c | c in s'.members && Rep(s', c).role == Candidate ensures CandidateOk(s', c) {
      if SameRound(s.members[c], s'.members[c]) {
        assert CandidateOk(s, c) && MemberGrows(s.members[c], s'.members[c]);
        forall g | g in s.members[c].granted ensures VotedFor(s', g, Rep(s', c).term, c) {
          assert MemberGrows(s.members[g], s'.members[g]);
        }
      }
    }
  }

  lemma LeadersKept(s: Cluster, s': Cluster, n: NodeId)
    requires LeadersOk(s) && StepOf(s, s', n) && LeaderStep(s, s', n)
    ensures LeadersOk(s')
  {
  }

  lemma ReignKept(s: Cluster, s': Cluster, n: NodeId, t: nat)
    requires StepOf(s, s', n) && t in s.reigns && ReignOk(s, t, s.reigns[t].leader)
    requires StaysLeader(s, s', n)
    requires s'.reigns[t].log != s.reigns[t].log ==> s.reigns[t].leader == n
    ensures ReignOk(s', t, s'.reigns[t].leader)
  {
    hide Majority;
    var l := s.reigns[t].leader;
    StepMemberGrows(s, s', n, l);
    StepGrows(s, s', n);
    VotersGrow(s, s', t, l);
  }

  lemma ReignsKept(s: Cluster, s': Cluster, n: NodeId)
    requires ReignsOk(s) && StepOf(s, s', n) && ReignStep(s, s', n)
    ensures ReignsOk(s')
  {
    hide ReignOk, MemberGrows, StaysLeader;
    forall t | t in s'.reigns ensures ReignOk(s', t, s'.reigns[t].leader) {
      if t in s.reigns {
        ReignKept(s, s', n, t);
      }
    }
  }

  lemma BallotsKept(s: Cluster, s': Cluster, n: NodeId)
    requires BallotsOk(s) && StepOf(s, s', n) && BallotStep(s, s', n)
    ensures BallotsOk(s')
  {
    StepGrows(s, s', n);
    forall b | b in s'.ballots ensures b.candidateId in s'.members && BallotOk(s', b, Rep(s', b.candidateId)) {
      if b in s.ballots {
        assert BallotOk(s, b, Rep(s, b.candidateId));
        assert MemberGrows(s.members[b.candidateId], s'.members[b.candidateId]);
      }
    }
  }

  ghost predicate ElectoralStep(s: Cluster, s': Cluster, n: NodeId) {
    && StepOf(s, s', n) && VotesStep(s, s', n) && RoundStep(s, s', n)
    && LeaderStep(s, s', n) && ReignStep(s, s', n) && BallotStep(s, s', n)
  }

  lemma ElectoralKept(s: Cluster, s': Cluster, n: NodeId)
    requires Electoral(s) && ElectoralStep(s, s', n)
    ensures Electoral(s')
  {
    hide Shape, VotesOk, CandidatesOk, LeadersOk, ReignsOk, BallotsOk;
    hide VotesStep, RoundStep, LeaderStep, ReignStep, BallotStep, MemberGrows, ReignsGrow;
    ShapeKept(s, s', n);
    VotesKept(s, s', n);
    CandidatesKept(s, s', n);
    LeadersKept(s, s', n);
    ReignsKept(s, s', n);
    BallotsKept(s, s', n);
  }

  /** An action without a vote, a victory or a proposal. */
  lemma QuietStep(s: Cluster, s': Cluster, n: NodeId)
    requires StepOf(s, s', n)
    requires s'.reigns == s.reigns && s'.ballots == s.ballots
    requires s'.members[n].voted == s.members[n].voted
    requires Rep(s', n).role == Candidate ==>
               && SameRound(s.members[n], s'.members[n])
               && (Rep(s', n).term !in s'.reigns ==> Rep(s', n).log == Rep(s, n).log)
    requires Rep(s', n).role == Leader ==>
               Rep(s, n).role == Leader && Rep(s', n).term == Rep(s, n).term
    requires StaysLeader(s, s', n)
    ensures ElectoralStep(s, s', n)
  {
  }

  lemma CanonExtends(reigns: map<nat, Reign>, reigns': map<nat, Reign>, log: Log)
    requires Canon(reigns, log) && ReignsGrow(reigns, reigns')
    ensures Canon(reigns', log)
  {
    forall i | 0 <= i < |log| ensures CanonAt(reigns', log, i) {
      assert CanonAt(reigns, log, i);
    }
  }

  // The same for replication and bookkeeping.

  ghost predicate LogStep(s: Cluster, s': Cluster, n: NodeId)
    requires n in s.members && n in s'.members
  {
    && (Rep(s', n).log == Rep(s, n).log || LogOk(s'.reigns, Rep(s', n).log, Rep(s', n).term))
    && (forall t :: t in s'.reigns && (t !in s.reigns || s'.reigns[t].log != s.reigns[t].log) ==>
          LogOk(s'.reigns, s'.reigns[t].log, t))
  }

  ghost predicate NetStep(s: Cluster, s': Cluster) {
    forall q :: q in s'.net && q !in s.net ==> q.term in s'.reigns && SliceOf(q, s'.reigns[q.term].log)
  }

  ghost predicate AckStep(s: Cluster, s': Cluster, n: NodeId)
    requires n in s.members && n in s'.members
  {
    forall t :: t in s'.members[n].acked ==>
      || AckOk(s', n, t, s'.members[n].acked[t])
      || (&& t in s.members[n].acked && s.members[n].acked[t] == s'.members[n].acked[t]
          && (Rep(s', n).term == t ==> Rep(s, n).log <= Rep(s', n).log))
  }

  ghost predicate MatchStep(s: Cluster, s': Cluster, n: NodeId)
    requires n in s.members && n in s'.members
  {
    && Rep(s', n).matchIndex.Keys <= Rep(s', n).peers + Rep(s, n).matchIndex.Keys
    && (Rep(s', n).role == Leader ==>
          || |Rep(s', n).log| <= Ack(s', n, Rep(s', n).term)
          || (Rep(s, n).role == Leader && Rep(s', n).term == Rep(s, n).term && Rep(s', n).log == Rep(s, n).log))
    && (Rep(s', n).role == Leader ==>
          || (forall f :: f in s'.members && f != n ==> MatchOk(s', Rep(s', n), f))
          || (&& Rep(s, n).role == Leader && Rep(s', n).term == Rep(s, n).term
              && |Rep(s, n).log| <= |Rep(s', n).log|
              && Rep(s', n).nextIndex == Rep(s, n).nextIndex && Rep(s', n).matchIndex == Rep(s, n).matchIndex))
  }

  ghost predicate ReplicatedStep(s: Cluster, s': Cluster, n: NodeId) {
    && n in s.members && n in s'.members
    && LogStep(s, s', n) && NetStep(s, s') && AckStep(s, s', n) && MatchStep(s, s', n)
  }

  /** An action that neither stores, sends nor counts anything. */
  lemma QuietReplication(s: Cluster, s': Cluster, n: NodeId)
    requires n in s.members && n in s'.members
    requires s'.net == s.net && s'.reigns == s.reigns
    requires Rep(s', n).log == Rep(s, n).log && s'.members[n].acked == s.members[n].acked
    requires Rep(s', n).nextIndex == Rep(s, n).nextIndex && Rep(s', n).matchIndex == Rep(s, n).matchIndex
    requires Rep(s', n).role == Leader ==> Rep(s, n).role == Leader && Rep(s', n).term == Rep(s, n).term
    ensures ReplicatedStep(s, s', n)
  {
  }

  lemma LogsKept(s: Cluster, s': Cluster, v: NodeId)
    requires LogsOk(s) && StepOf(s, s', v) && LogStep(s, s', v)
    ensures LogsOk(s')
  {
    StepGrows(s, s', v);
    forall n | n in s'.members ensures LogOk(s'.reigns, Rep(s', n).log, Rep(s', n).term) {
      assert LogOk(s.reigns, Rep(s, n).log, Rep(s, n).term) && MemberGrows(s.members[n], s'.members[n]);
      CanonExtends(s.reigns, s'.reigns, Rep(s, n).log);
    }
    forall t | t in s'.reigns ensures LogOk(s'.reigns, s'.reigns[t].log, t) {
      if t in s.reigns {
        assert LogOk(s.reigns, s.reigns[t].log, t);
        CanonExtends(s.reigns, s'.reigns, s.reigns[t].log);
      }
    }
  }

  lemma NetKept(s: Cluster, s': Cluster)
    requires NetOk(s) && ReignsGrow(s.reigns, s'.reigns) && NetStep(s, s')
    ensures NetOk(s')
  {
    forall q | q in s'.net ensures q.term in s'.reigns && SliceOf(q, s'.reigns[q.term].log) {
      if q in s.net {
        SliceGrows(q, s.reigns[q.term].log, s'.reigns[q.term].log);
      }
    }
  }

  lemma SliceGrows(q: AppendRequest, l: Log, l': Log)
    requires SliceOf(q, l) && l <= l'
    ensures SliceOf(q, l')
  {
  }

  lemma AcksKept(s: Cluster, s': Cluster, n: NodeId)
    requires AcksOk(s) && StepOf(s, s', n) && AckStep(s, s', n)
    ensures AcksOk(s')
  {
    StepGrows(s, s', n);
    forall v, t | v in s'.members && t in s'.members[v].acked ensures AckOk(s', v, t, s'.members[v].acked[t]) {
      if !AckOk(s', v, t, s'.members[v].acked[t]) {
        AckKept(s, s', v, t);
      }
    }
  }

  lemma AckKept(s: Cluster, s': Cluster, v: NodeId, t: nat)
    requires Grows(s, s') && v in s.members
    requires t in s.members[v].acked && AckOk(s, v, t, s.members[v].acked[t])
    requires t in s'.members[v].acked && s.members[v].acked[t] == s'.members[v].acked[t]
    requires Rep(s', v).term == t ==> Rep(s, v).log <= Rep(s', v).log
    ensures AckOk(s', v, t, s'.members[v].acked[t])
  {
    assert MemberGrows(s.members[v], s'.members[v]);
  }

  lemma MatchKept(s: Cluster, s': Cluster, r: Replica, r': Replica, f: NodeId)
    requires f in s.members && f in s'.members && MatchOk(s, r, f)
    requires MemberGrows(s.members[f], s'.members[f])
    requires r'.term == r.term && |r.log| <= |r'.log|
    requires r'.nextIndex == r.nextIndex && r'.matchIndex == r.matchIndex
    ensures MatchOk(s', r', f)
  {
  }

  lemma MatchesKept(s: Cluster, s': Cluster, v: NodeId)
    requires MatchesOk(s) && StepOf(s, s', v) && MatchStep(s, s', v)
    ensures MatchesOk(s')
  {
    hide MatchOk, MemberGrows, ReignsGrow;
    forall n, f | n in s'.members && Rep(s', n).role == Leader && f in s'.members && f != n
      ensures MatchOk(s', Rep(s', n), f)
    {
      if !MatchOk(s', Rep(s', n), f) {
        StepMemberGrows(s, s', v, f);
        MatchKept(s, s', Rep(s, n), Rep(s', n), f);
      }
    }
  }

  lemma StepMemberGrows(s: Cluster, s': Cluster, v: NodeId, n: NodeId)
    requires StepOf(s, s', v) && n in s.members
    ensures MemberGrows(s.members[n], s'.members[n])
  {
  }

  lemma BookkeepingKept(s: Cluster, s': Cluster, v: NodeId)
    requires Bookkept(s) && StepOf(s, s', v) && MatchStep(s, s', v)
    ensures Bookkept(s')
  {
    hide MatchesOk;
    MatchesKept(s, s', v);
  }

  lemma ReplicatedKept(s: Cluster, s': Cluster, v: NodeId)
    requires Replicated(s) && StepOf(s, s', v) && ReplicatedStep(s, s', v)
    ensures Replicated(s')
  {
    hide LogsOk, NetOk, AcksOk, LogStep, NetStep, AckStep, MatchStep, MemberGrows, ReignsGrow;
    LogsKept(s, s', v);
    NetKept(s, s');
    AcksKept(s, s', v);
  }

  lemma StepBase(s: Cluster, s': Cluster, v: NodeId)
    requires Base(s) && ElectoralStep(s, s', v) && ReplicatedStep(s, s', v)
    ensures Base(s')
  {
    hide Electoral, Replicated, Bookkept, StepOf, LogStep, NetStep, AckStep, MatchStep;
    hide VotesStep, RoundStep, LeaderStep, ReignStep, BallotStep;
    ElectoralKept(s, s', v);
    ReplicatedKept(s, s', v);
    BookkeepingKept(s, s', v);
  }
}

/** The part of the invariant that rests on the voters' up-to-date check: what a
    majority may have accepted is never lost again, and only such entries are
    committed and applied. */
module SafeInvariant {
  import opened Types
  import opened Logs
  import opened Replicas
  import opened Quorums
  import opened Clusters
  import opened BaseInvariant

  /** The nodes that have accepted the first i entries of the leader of `term`,
      or still could because they have not left the term behind. */
  function Choosers(s: Cluster, term: nat, i: nat): set<NodeId> {
    set v | v in s.members && (Ack(s, v, term) >= i || Rep(s, v).term <= term)
  }

  /** The leader of `term` may count index i as committed, now or later. */
  ghost predicate Locked(s: Cluster, term: nat, i: nat) {
    && term in s.reigns
    && 1 <= i <= |s.reigns[term].log| && s.reigns[term].log[i - 1].term == term
    && Majority(s.members.Keys, Choosers(s, term, i))
  }

  ghost predicate Holds(s: Cluster, term: nat, i: nat, log: Log)
    requires Locked(s, term, i)
  {
    s.reigns[term].log[..i] <= log
  }

  /** Leader completeness: the later leaders have it. */
  ghost predicate ReignsHold(s: Cluster) {
    forall t: nat, i: nat, u :: Locked(s, t, i) && u in s.reigns && t < u ==> Holds(s, t, i, s.reigns[u].log)
  }

  /** The nodes that accepted it have it. */
  ghost predicate NodesHold(s: Cluster) {
    forall t: nat, i: nat, v :: Locked(s, t, i) && v in s.members && i <= Ack(s, v, t) ==> Holds(s, t, i, Rep(s, v).log)
  }

  /** A candidate that may still win has what each of its voters accepted. */
  ghost predicate VotersHold(s: Cluster) {
    forall t: nat, i: nat, v, c :: Locked(s, t, i) && c in s.members && Backs(s, v, c) && t < Rep(s, c).term && i <= Ack(s, v, t) ==>
      Holds(s, t, i, Rep(s, c).log)
  }

  ghost predicate Backs(s: Cluster, v: NodeId, c: NodeId)
    requires c in s.members
  {
    && Rep(s, c).role == Candidate && Rep(s, c).term !in s.reigns
    && VotedFor(s, v, Rep(s, c).term, c)
  }

  function Ackers(s: Cluster, term: nat, i: nat): set<NodeId> {
    set v | v in s.members && Ack(s, v, term) >= i
  }

  /** A majority has accepted the first i entries of the leader of `term`, the
      last of them from that term. */
  ghost predicate Committed(s: Cluster, term: nat, i: nat) {
    && term in s.reigns
    && 1 <= i <= |s.reigns[term].log| && s.reigns[term].log[i - 1].term == term
    && Majority(s.members.Keys, Ackers(s, term, i))
  }

  ghost predicate BackedBy(s: Cluster, term: nat, prefix: Log, t: nat, i: nat) {
    && Committed(s, t, i) && t <= term
    && |prefix| <= i && prefix == s.reigns[t].log[..|prefix|]
  }

  /** The prefix lies within entries that some leader up to `term` committed. */
  ghost predicate Backed(s: Cluster, term: nat, prefix: Log) {
    prefix == [] || exists t: nat, i: nat :: BackedBy(s, term, prefix, t, i)
  }

  ghost predicate CommitOk(s: Cluster, r: Replica) {
    && Ordered(r) && r.lastApplied == r.commitIndex
    && Backed(s, r.term, r.log[..r.commitIndex])
    && r.table == Replay(r.log[..r.lastApplied])
  }

  ghost predicate CommitsOk(s: Cluster) {
    forall n :: n in s.members ==> CommitOk(s, Rep(s, n))
  }

  /** A request never announces more than it carries. */
  ghost predicate AnnouncedOk(s: Cluster, q: AppendRequest)
    requires q.term in s.reigns
  {
    && q.leaderCommit <= q.prevLogIndex + |q.entries| <= |s.reigns[q.term].log|
    && Backed(s, q.term, s.reigns[q.term].log[..q.leaderCommit])
  }

  ghost predicate NetCommitsOk(s: Cluster) {
    forall q :: q in s.net ==> q.term in s.reigns && AnnouncedOk(s, q)
  }

  ghost predicate Safe(s: Cluster) {
    ReignsHold(s) && NodesHold(s) && VotersHold(s) && CommitsOk(s) && NetCommitsOk(s)
  }

  // ------------------------------------------------------------ consequences

  lemma CommittedIsLocked(s: Cluster, t: nat, i: nat)
    requires Committed(s, t, i)
    ensures Locked(s, t, i)
  {
    SubsetCardinality(Ackers(s, t, i), Choosers(s, t, i));
  }

  lemma HoldsFor(s: Cluster, t: nat, i: nat, v: NodeId)
    requires NodesHold(s) && Locked(s, t, i) && v in s.members && i <= Ack(s, v, t)
    ensures Holds(s, t, i, Rep(s, v).log)
  {
  }

  lemma ReignHolds(s: Cluster, t: nat, i: nat, u: nat)
    requires ReignsHold(s) && Locked(s, t, i) && u in s.reigns && t <= u
    ensures s.reigns[t].log[..i] <= s.reigns[u].log
  {
    assert t < u ==> Holds(s, t, i, s.reigns[u].log);
  }

  /** What is committed is in the log of every leader from then on. */
  lemma BackedInReign(s: Cluster, term: nat, prefix: Log, u: nat)
    requires ReignsHold(s) && Backed(s, term, prefix) && u in s.reigns && term <= u
    ensures prefix <= s.reigns[u].log
  {
    if prefix != [] {
      var t: nat, i: nat :| BackedBy(s, term, prefix, t, i);
      CommittedIsLocked(s, t, i);
      if t < u {
        assert Holds(s, t, i, s.reigns[u].log);
      }
    }
  }

  lemma BackedByAgree(s: Cluster, termA: nat, a: Log, ta: nat, i: nat, termB: nat, b: Log, tb: nat, j: nat)
    requires ReignsHold(s) && BackedBy(s, termA, a, ta, i) && BackedBy(s, termB, b, tb, j) && |a| <= |b|
    ensures a <= b
  {
    hide ReignsHold;
    CommittedIsLocked(s, ta, i);
    CommittedIsLocked(s, tb, j);
    if ta <= tb {
      ReignHolds(s, ta, i, tb);
    } else {
      ReignHolds(s, tb, j, ta);
    }
  }

  /** Of two committed prefixes one begins with the other. */
  lemma BackedAgree(s: Cluster, termA: nat, a: Log, termB: nat, b: Log)
    requires ReignsHold(s) && Backed(s, termA, a) && Backed(s, termB, b) && |a| <= |b|
    ensures a <= b
  {
    hide ReignsHold, BackedBy;
    if a != [] {
      var ta: nat, i: nat :| BackedBy(s, termA, a, ta, i);
      var tb: nat, j: nat :| BackedBy(s, termB, b, tb, j);
      BackedByAgree(s, termA, a, ta, i, termB, b, tb, j);
    }
  }

  // ------------------------------------------------------ growth and the locks

  lemma ChoosersShrink(s: Cluster, s': Cluster, t: nat, i: nat)
    requires Grows(s, s')
    ensures Choosers(s', t, i) <= Choosers(s, t, i)
  {
    forall v | v in Choosers(s', t, i) ensures v in Choosers(s, t, i) {
      assert MemberGrows(s.members[v], s'.members[v]);
    }
  }

  lemma ChoosersInside(s: Cluster, t: nat, i: nat)
    ensures Choosers(s, t, i) <= s.members.Keys
  {
  }

  /** No lock appears on entries that were there before. */
  lemma LockedBefore(s: Cluster, s': Cluster, t: nat, i: nat)
    requires Grows(s, s') && Locked(s', t, i)
    requires t in s.reigns && i <= |s.reigns[t].log|
    ensures Locked(s, t, i)
    ensures s.reigns[t].log[..i] == s'.reigns[t].log[..i]
  {
    hide Choosers, MemberGrows;
    ChoosersShrink(s, s', t, i);
    SubsetCardinality(Choosers(s', t, i), Choosers(s, t, i));
    ChoosersInside(s, t, i);
  }

  lemma AckersGrow(s: Cluster, s': Cluster, t: nat, i: nat)
    requires Grows(s, s')
    ensures Ackers(s, t, i) <= Ackers(s', t, i) <= s'.members.Keys
  {
    forall v | v in Ackers(s, t, i) ensures v in Ackers(s', t, i) {
      assert MemberGrows(s.members[v], s'.members[v]);
    }
  }

  /** Committed once, committed for good. */
  lemma CommittedGrows(s: Cluster, s': Cluster, t: nat, i: nat)
    requires Grows(s, s') && Committed(s, t, i)
    ensures Committed(s', t, i)
    ensures s.reigns[t].log[..i] == s'.reigns[t].log[..i]
  {
    hide Ackers, MemberGrows;
    AckersGrow(s, s', t, i);
    SubsetCardinality(Ackers(s, t, i), Ackers(s', t, i));
  }

  lemma BackedByGrows(s: Cluster, s': Cluster, term: nat, term': nat, prefix: Log, t: nat, i: nat)
    requires Grows(s, s') && BackedBy(s, term, prefix, t, i) && term <= term'
    ensures BackedBy(s', term', prefix, t, i)
  {
    hide Grows;
    CommittedGrows(s, s', t, i);
    assert prefix == s'.reigns[t].log[..i][..|prefix|];
  }

  lemma BackedGrows(s: Cluster, s': Cluster, term: nat, term': nat, prefix: Log)
    requires Grows(s, s') && Backed(s, term, prefix) && term <= term'
    ensures Backed(s', term', prefix)
  {
    hide Grows, BackedBy;
    if prefix != [] {
      var t: nat, i: nat :| BackedBy(s, term, prefix, t, i);
      BackedByGrows(s, s', term, term', prefix, t, i);
    }
  }

  // ----------------------------------------------- what a step has to respect

  /** A lock on an entry nobody has moved past: no later leader exists, and only
      nodes still in the term have accepted it. */
  ghost predicate NewLock(s: Cluster, t: nat, i: nat)
    requires t in s.reigns && i <= |s.reigns[t].log|
  {
    && (forall u :: u in s.reigns ==> u <= t)
    && (forall v :: v in s.members && i <= Ack(s, v, t) ==>
          Rep(s, v).term <= t && s.reigns[t].log[..i] <= Rep(s, v).log)
  }

  ghost predicate LockOld(s: Cluster, s': Cluster, t: nat, i: nat)
    requires Locked(s', t, i)
  {
    Locked(s, t, i) && s'.reigns[t].log[..i] == s.reigns[t].log[..i]
  }

  ghost predicate LocksOld(s: Cluster, s': Cluster) {
    forall t: nat, i: nat :: Locked(s', t, i) ==> LockOld(s, s', t, i) || NewLock(s', t, i)
  }

  lemma SameReignsLocksOld(s: Cluster, s': Cluster)
    requires Grows(s, s') && s'.reigns == s.reigns
    ensures LocksOld(s, s')
  {
    forall t: nat, i: nat | Locked(s', t, i) ensures LockOld(s, s', t, i) {
      LockedBefore(s, s', t, i);
    }
  }

  lemma ReignsHoldKept(s: Cluster, s': Cluster)
    requires ReignsHold(s) && ReignsGrow(s.reigns, s'.reigns) && LocksOld(s, s')
    requires forall t: nat, i: nat, u :: Locked(s', t, i) && u in s'.reigns && u !in s.reigns && t < u ==>
               Holds(s', t, i, s'.reigns[u].log)
    ensures ReignsHold(s')
  {
    forall t: nat, i: nat, u | Locked(s', t, i) && u in s'.reigns && t < u ensures Holds(s', t, i, s'.reigns[u].log) {
      if u in s.reigns {
        assert LockOld(s, s', t, i) && Holds(s, t, i, s.reigns[u].log);
      }
    }
  }

  /** The node still has, or has by now, what it accepted. */
  ghost predicate HoldStep(s: Cluster, s': Cluster, n: NodeId)
    requires n in s'.members
  {
    forall t: nat, i: nat :: Locked(s, t, i) && i <= Ack(s', n, t) ==> Holds(s, t, i, Rep(s', n).log)
  }

  lemma NodesHoldKept(s: Cluster, s': Cluster, n: NodeId)
    requires NodesHold(s) && StepOf(s, s', n) && LocksOld(s, s') && HoldStep(s, s', n)
    ensures NodesHold(s')
  {
    forall t: nat, i: nat, v | Locked(s', t, i) && v in s'.members && i <= Ack(s', v, t)
      ensures Holds(s', t, i, Rep(s', v).log)
    {
      if LockOld(s, s', t, i) {
        if v != n {
          assert Holds(s, t, i, Rep(s, v).log);
        } else {
          assert Holds(s, t, i, Rep(s', n).log);
        }
      } else {
        assert NewLock(s', t, i);
      }
    }
  }

  /** A new vote of n goes to a candidate that has what n accepted. */
  ghost predicate VoteStep(s: Cluster, s': Cluster, n: NodeId)
    requires n in s.members && n in s'.members
  {
    forall t: nat, i: nat, c ::
      && Locked(s, t, i) && c in s'.members && Backs(s', n, c) && !VotedFor(s, n, Rep(s', c).term, c)
      && t < Rep(s', c).term && i <= Ack(s', n, t)
      ==> Holds(s, t, i, Rep(s', c).log)
  }

  /** The voter's accepted part of an earlier term is settled. */
  lemma AckSettled(m: Member, m': Member, t: nat)
    requires MemberGrows(m, m') && t < m.replica.term
    ensures t in m'.acked ==> t in m.acked && m.acked[t] == m'.acked[t]
  {
  }

  lemma VotersHoldAt(s: Cluster, s': Cluster, n: NodeId, t: nat, i: nat, v: NodeId, c: NodeId)
    requires VotersHold(s) && VotesOk(s) && StepOf(s, s', n) && VoteStep(s, s', n)
    requires BallotStep(s, s', n)
    requires Locked(s, t, i) && c in s'.members && Backs(s', v, c) && t < Rep(s', c).term && i <= Ack(s', v, t)
    ensures Holds(s, t, i, Rep(s', c).log)
  {
    hide VotersHold, VotesOk, VoteStep, StepOf, Locked;
    StepFacts(s, s', n, c);
    StepFacts(s, s', n, v);
    var u := Rep(s', c).term;
    if VotedFor(s, v, u, c) {
      VoteBelow(s, v, u, c);
      AckSettled(s.members[v], s'.members[v], t);
      VotersHoldFor(s, t, i, v, c);
    } else {
      NewVoteHolds(s, s', n, t, i, c);
    }
  }

  lemma StepFacts(s: Cluster, s': Cluster, n: NodeId, v: NodeId)
    requires StepOf(s, s', n)
    ensures s'.members.Keys == s.members.Keys
    ensures v != n && v in s.members ==> s'.members[v] == s.members[v]
    ensures v in s.members ==> MemberGrows(s.members[v], s'.members[v])
    ensures forall t :: t in s.reigns ==> t in s'.reigns
  {
  }

  lemma VoteBelow(s: Cluster, v: NodeId, u: nat, c: NodeId)
    requires VotesOk(s) && VotedFor(s, v, u, c)
    ensures u <= Rep(s, v).term && c in s.members && u <= Rep(s, c).term
  {
    assert VoteOk(s, u, v, c);
  }

  lemma VotersHoldFor(s: Cluster, t: nat, i: nat, v: NodeId, c: NodeId)
    requires VotersHold(s) && Locked(s, t, i) && c in s.members && Backs(s, v, c)
    requires t < Rep(s, c).term && i <= Ack(s, v, t)
    ensures Holds(s, t, i, Rep(s, c).log)
  {
  }

  lemma NewVoteHolds(s: Cluster, s': Cluster, n: NodeId, t: nat, i: nat, c: NodeId)
    requires n in s.members && n in s'.members && VoteStep(s, s', n)
    requires Locked(s, t, i) && c in s'.members && Backs(s', n, c) && !VotedFor(s, n, Rep(s', c).term, c)
    requires t < Rep(s', c).term && i <= Ack(s', n, t)
    ensures Holds(s, t, i, Rep(s', c).log)
  {
  }

  lemma VotersHoldKept(s: Cluster, s': Cluster, n: NodeId)
    requires VotersHold(s) && VotesOk(s) && StepOf(s, s', n) && LocksOld(s, s')
    requires VoteStep(s, s', n) && BallotStep(s, s', n) && VotesOk(s')
    ensures VotersHold(s')
  {
    hide VotesOk, StepOf, VoteStep, BallotStep, Locked;
    forall t: nat, i: nat, v, c |
      Locked(s', t, i) && c in s'.members && Backs(s', v, c) && t < Rep(s', c).term && i <= Ack(s', v, t)
      ensures Holds(s', t, i, Rep(s', c).log)
    {
      VoteBelow(s', v, Rep(s', c).term, c);
      if LockOld(s, s', t, i) {
        VotersHoldAt(s, s', n, t, i, v, c);
      }
    }
  }

  /** The committed part survives, and nothing else about it changes. */
  lemma CommitOkKept(s: Cluster, s': Cluster, r: Replica, r': Replica)
    requires CommitOk(s, r) && Grows(s, s')
    requires r.term <= r'.term && r.commitIndex == r'.commitIndex && r.lastApplied == r'.lastApplied
    requires r.table == r'.table && r.log[..r.commitIndex] <= r'.log
    ensures CommitOk(s', r')
  {
    hide Backed, Replay, Grows;
    assert r'.log[..r.commitIndex] == r.log[..r.commitIndex];
    assert r'.log[..r.lastApplied] == r.log[..r.commitIndex][..r.lastApplied] == r.log[..r.lastApplied];
    BackedGrows(s, s', r.term, r'.term, r.log[..r.commitIndex]);
  }

  lemma CommitsKept(s: Cluster, s': Cluster, n: NodeId)
    requires CommitsOk(s) && StepOf(s, s', n) && CommitOk(s', Rep(s', n))
    ensures CommitsOk(s')
  {
    hide CommitOk, MemberGrows, ReignsGrow;
    StepGrows(s, s', n);
    forall v | v in s'.members ensures CommitOk(s', Rep(s', v)) {
      if v != n {
        assert s'.members[v] == s.members[v];
        CommitOkSame(s, s', Rep(s, v));
      }
    }
  }

  lemma CommitOkSame(s: Cluster, s': Cluster, r: Replica)
    requires CommitOk(s, r) && Grows(s, s')
    ensures CommitOk(s', r)
  {
    CommitOkKept(s, s', r, r);
  }

  ghost predicate AnnounceStep(s: Cluster, s': Cluster) {
    forall q :: q in s'.net && q !in s.net ==> q.term in s'.reigns && AnnouncedOk(s', q)
  }

  lemma AnnouncedKept(s: Cluster, s': Cluster, q: AppendRequest)
    requires q.term in s.reigns && q.term in s'.reigns && AnnouncedOk(s, q) && Grows(s, s')
    ensures AnnouncedOk(s', q)
  {
    var c := q.leaderCommit;
    assert s.reigns[q.term].log[..c] == s'.reigns[q.term].log[..c];
    BackedGrows(s, s', q.term, q.term, s.reigns[q.term].log[..c]);
  }

  lemma NetCommitsKept(s: Cluster, s': Cluster)
    requires NetCommitsOk(s) && Grows(s, s') && AnnounceStep(s, s')
    ensures NetCommitsOk(s')
  {
    hide AnnouncedOk;
    forall q | q in s'.net ensures q.term in s'.reigns && AnnouncedOk(s', q) {
      if q in s.net {
        AnnouncedKept(s, s', q);
      }
    }
  }

  ghost predicate SafeStep(s: Cluster, s': Cluster, n: NodeId) {
    && StepOf(s, s', n) && n in s'.members
    && BallotStep(s, s', n) && HoldStep(s, s', n) && VoteStep(s, s', n)
    && CommitOk(s', Rep(s', n)) && AnnounceStep(s, s')
  }

  lemma SafeKept(s: Cluster, s': Cluster, n: NodeId)
    requires VotesOk(s) && VotesOk(s') && Safe(s) && SafeStep(s, s', n) && LocksOld(s, s')
    requires ReignsHold(s')
    ensures Safe(s')
  {
    hide VotesOk, ReignsHold, NodesHold, VotersHold, CommitsOk, NetCommitsOk;
    hide StepOf, BallotStep, HoldStep, VoteStep, CommitOk, AnnounceStep, LocksOld;
    StepGrows(s, s', n);
    NodesHoldKept(s, s', n);
    VotersHoldKept(s, s', n);
    CommitsKept(s, s', n);
    NetCommitsKept(s, s');
  }

  /** A step that adds no entry to any leader's log. */
  lemma SafeKeptSameReigns(s: Cluster, s': Cluster, n: NodeId)
    requires VotesOk(s) && VotesOk(s') && Safe(s) && SafeStep(s, s', n) && s'.reigns == s.reigns
    ensures Safe(s')
  {
    hide VotesOk, NodesHold, VotersHold, CommitsOk, NetCommitsOk;
    hide BallotStep, HoldStep, VoteStep, CommitOk, AnnounceStep;
    StepGrows(s, s', n);
    SameReignsLocksOld(s, s');
    ReignsHoldKept(s, s');
    SafeKept(s, s', n);
  }
}

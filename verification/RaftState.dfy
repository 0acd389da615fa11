/** RaftState: role and term. Its own `votedFor` is cleared but never set. */
module RaftStates {
  import opened Types

  class RaftState {
    var currentRole: Role
    var currentTerm: nat
    var votedFor: Option<NodeId>

    constructor ()
      ensures currentRole == Follower && currentTerm == 0 && votedFor == None
    {
      currentRole, currentTerm, votedFor := Follower, 0, None;
    }

    method BecomeFollower(term: nat)
      modifies this
      ensures currentRole == Follower && currentTerm == term && votedFor == None
    {
      currentRole := Follower;
      currentTerm := term;
      votedFor := None;
    }

    method BecomeCandidate()
      modifies this`currentRole, this`currentTerm
      ensures currentRole == Candidate && currentTerm == old(currentTerm) + 1
    {
      currentRole := Candidate;
      currentTerm := currentTerm + 1;
    }

    method BecomeLeader()
      modifies this`currentRole
      ensures currentRole == Leader
    {
      currentRole := Leader;
    }

    method SetCurrentTerm(term: nat)
      modifies this`currentTerm
      ensures currentTerm == term
    {
      currentTerm := term;
    }
  }
}

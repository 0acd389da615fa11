/** Arithmetic of the vote and replication counts. */
module Quorums {
  import opened Replicas

  lemma DisjointSizes<T>(a: set<T>, b: set<T>)
    requires a !! b
    ensures |a + b| == |a| + |b|
  {
  }

  /** A set of nodes that is large enough to elect or to commit: more than half
      of the number of peers, which is one less than the number of nodes. */
  predicate Majority<T>(nodes: set<T>, q: set<T>) {
    q <= nodes && nodes != {} && |q| > (|nodes| - 1) / 2
  }

  lemma MajoritiesMeet<T>(nodes: set<T>, a: set<T>, b: set<T>) returns (x: T)
    requires |nodes| % 2 == 1 && Majority(nodes, a) && Majority(nodes, b)
    ensures x in a && x in b
  {
    if a !! b {
      DisjointSizes(a, b);
      SubsetCardinality(a + b, nodes);
    }
    x :| x in a && x in b;
  }

  lemma {:induction false} SubsetOfSize<T>(s: set<T>, k: nat) returns (sub: set<T>)
    requires k <= |s|
    ensures sub <= s && |sub| == k
    decreases |s|
  {
    if |s| == k {
      sub := s;
    } else {
      var x :| x in s;
      sub := SubsetOfSize(s - {x}, k);
    }
  }

  ghost predicate AllMajoritiesMeet<T(!new)>(nodes: set<T>) {
    forall a: set<T>, b: set<T> :: Majority(nodes, a) && Majority(nodes, b) ==> a * b != {}
  }

  /** Two halves of an even number of nodes are disjoint and both large
      enough. */
  lemma HalvesAreMajorities<T>(nodes: set<T>) returns (a: set<T>, b: set<T>)
    requires nodes != {} && |nodes| % 2 == 0
    ensures Majority(nodes, a) && Majority(nodes, b) && a !! b && a + b == nodes
  {
    a := SubsetOfSize(nodes, |nodes| / 2);
    b := nodes - a;
    DisjointSizes(a, b);
    assert a + b == nodes;
  }

  /** The test `> peers.size() / 2` makes every two quorums share a node exactly
      when the number of peers is even. */
  lemma QuorumsMeetIffPeersEven<T(!new)>(nodes: set<T>, peers: nat)
    requires |nodes| == peers + 1
    ensures AllMajoritiesMeet(nodes) <==> peers % 2 == 0
  {
    if peers % 2 == 0 {
      forall a: set<T>, b: set<T> | Majority(nodes, a) && Majority(nodes, b) ensures a * b != {} {
        var x := MajoritiesMeet(nodes, a, b);
        assert x in a * b;
      }
    } else {
      var a, b := HalvesAreMajorities(nodes);
      assert a * b == {};
    }
  }
}

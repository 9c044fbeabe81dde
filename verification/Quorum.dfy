/** Two majorities of the same nodes share a node, whether their number is odd or even. */
module Quorum {
  import opened Messages
  import opened NodeSpec

  lemma CardinalityOfSubset<T>(a: set<T>, b: set<T>)
    requires a <= b
    ensures |a| <= |b|
  {
    assert b == a + (b - a);
  }

  lemma MajoritiesIntersect(a: set<NodeId>, b: set<NodeId>, ids: set<NodeId>) returns (v: NodeId)
    requires a <= ids && b <= ids
    requires IsMajority(|a|, |ids|) && IsMajority(|b|, |ids|)
    ensures v in a && v in b
  {
    CardinalityOfSubset(a + b, ids);
    assert |a + b| + |a * b| == |a| + |b|;
    v :| v in a * b;
  }
}

/** The commit rule picks the order statistic of the match indices that a majority reaches. */
module CommitRule {
  import opened Messages
  import opened NodeSpec
  import opened Quorum

  /** The least number of nodes that is a majority of `total`. */
  function QuorumSize(total: nat): (q: nat)
    ensures IsMajority(q, total) && forall k: nat :: IsMajority(k, total) <==> q <= k
  {
    (total + 2) / 2
  }

  /** The keys of `m`, each once, from the largest value to the smallest. */
  ghost predicate Descending(m: map<NodeId, nat>, keys: seq<NodeId>) {
    && (forall k | k in keys :: k in m)
    && (forall id | id in m :: id in keys)
    && (forall i, j | 0 <= i < j < |keys| :: keys[i] != keys[j] && m[keys[i]] >= m[keys[j]])
  }

  lemma {:induction false} PrefixSize(keys: seq<NodeId>, n: nat)
    requires n <= |keys| && forall i, j | 0 <= i < j < |keys| :: keys[i] != keys[j]
    ensures |set k | 0 <= k < n :: keys[k]| == n
  {
    var s := set k | 0 <= k < n :: keys[k];
    if n > 0 {
      PrefixSize(keys, n - 1);
      assert s == (set k | 0 <= k < n - 1 :: keys[k]) + {keys[n - 1]};
    }
  }

  /** The key of a least value goes to the end of the order of the others. */
  lemma DescendingSnoc(m: map<NodeId, nat>, least: NodeId, rest: seq<NodeId>)
    requires least in m && (forall id | id in m :: m[least] <= m[id]) && Descending(m - {least}, rest)
    ensures Descending(m, rest + [least])
  {
    var keys := rest + [least];
    forall i, j | 0 <= i < j < |keys|
      ensures keys[i] in m && keys[j] in m && keys[i] != keys[j] && m[keys[i]] >= m[keys[j]]
    {
      assert rest[i] in m - {least};
      assert j < |rest| ==> rest[j] in m - {least};
    }
    forall id ensures id in keys <==> id in m {
      assert id in m - {least} <==> id in m && id != least;
    }
  }

  /** Every map has such an order of its keys. */
  lemma {:induction false} DescendingExists(m: map<NodeId, nat>) returns (keys: seq<NodeId>)
    ensures Descending(m, keys)
    decreases |m|
  {
    if m.Keys == {} {
      keys := [];
    } else {
      var least := LeastKey(m, m.Keys);
      hide Descending;
      var rest := DescendingExists(m - {least});
      DescendingSnoc(m, least, rest);
      keys := rest + [least];
    }
  }

  lemma {:induction false} LeastKey(m: map<NodeId, nat>, among: set<NodeId>) returns (least: NodeId)
    requires among != {} && among <= m.Keys
    ensures least in among && forall id | id in among :: m[least] <= m[id]
    decreases |among|
  {
    least :| least in among;
    if among != {least} {
      var other := LeastKey(m, among - {least});
      if m[other] < m[least] {
        least := other;
      }
    }
  }

  /** At least `q` match indices reach `i` exactly if the `q`-th largest does. */
  lemma HeldByStatistic(m: map<NodeId, nat>, keys: seq<NodeId>, q: nat, i: nat)
    requires Descending(m, keys) && 1 <= q <= |keys|
    ensures |Holders(m, i)| >= q <==> m[keys[q - 1]] >= i
  {
    if m[keys[q - 1]] >= i {
      PrefixSize(keys, q);
      CardinalityOfSubset(set k | 0 <= k < q :: keys[k], Holders(m, i));
    } else {
      PrefixSize(keys, q - 1);
      CardinalityOfSubset(Holders(m, i), set k | 0 <= k < q - 1 :: keys[k]);
    }
  }

  lemma HoldersAtMostAll(m: map<NodeId, nat>, keys: seq<NodeId>, i: nat)
    requires Descending(m, keys)
    ensures |Holders(m, i)| <= |keys|
  {
    PrefixSize(keys, |keys|);
    CardinalityOfSubset(Holders(m, i), set k | 0 <= k < |keys| :: keys[k]);
  }

  /** For any maps and any number of nodes: the commit index becomes the larger of what it
      was and the `q`-th largest match index, cut off at the end of the log, where `q` is the
      size of a majority; with fewer than `q` match indices it does not move. */
  lemma CommitIsOrderStatistic(s: NodeState, total: nat, keys: seq<NodeId>)
    requires s.log != [] && s.role.Leader? && Descending(s.role.matchIndex, keys)
    ensures var q := QuorumSize(total);
            CommitIfPossible(s, total).commit
            == if q <= |keys| then Max(s.commit, Min(LastIndex(s.log), s.role.matchIndex[keys[q - 1]])) else s.commit
  {
    var m, q, last := s.role.matchIndex, QuorumSize(total), LastIndex(s.log);
    var r := HighestHeld(m, total, s.commit, last);
    if q <= |keys| {
      var v := m[keys[q - 1]];
      HeldByStatistic(m, keys, q, r);
      HeldByStatistic(m, keys, q, Min(last, v));
    } else {
      HoldersAtMostAll(m, keys, r);
    }
  }
}

/** Leader completeness and the safety of commit indices, for runs that obey G1, G2 and G4. */
module CommitInvariant {
  import opened Messages
  import opened NodeSpec
  import opened Cluster
  import opened CoreInvariant
  import opened AppendEntriesStep
  import opened Quorum

  /** A majority confirmed the recorded index, and it holds an entry of the leader's term or of the
      term right before. */
  ghost predicate RecordOk(h: History, ids: set<NodeId>, r: CommitRecord) {
    && r.term in h.elections && r.index < |h.elections[r.term].log|
    && r.term <= h.elections[r.term].log[r.index].leaderTerm + 1
    && r.quorum <= ids && IsMajority(|r.quorum|, |ids|)
    && forall v | v in r.quorum :: Ack(v, r.term, r.index) in h.acks
  }

  ghost predicate RecordsOk(h: History, ids: set<NodeId>) {
    forall r | r in h.commits :: RecordOk(h, ids, r)
  }

  predicate Covers(h: History, r: CommitRecord, term: Term, p: Log) {
    && r.term <= term && r.term in h.elections && r.index < |h.elections[r.term].log|
    && p <= Prefix(h, r.term, r.index)
  }

  /** Every entry of `p` was committed by a leader of `term` or of an earlier term. */
  ghost predicate CommittedBy(h: History, term: Term, p: Log) {
    p <= [SENTINEL] || exists r | r in h.commits :: Covers(h, r, term, p)
  }

  // Leader completeness

  /** Two logs that end in the same term are prefixes of one another. */
  lemma SameLastTerm(h: History, ids: set<NodeId>, a: Log, b: Log)
    requires HistOk(h, ids) && LogOk(h, a) && LogOk(h, b)
    requires LastTerm(a) == LastTerm(b) && |a| <= |b|
    ensures a <= b
  {
    if |a| > 1 {
      assert EntryOk(h, a, |a| - 1) && a[..|a|] == a;
      assert ElectionOk(h, ids, LastTerm(a));
      assert EntryOk(h, b, |b| - 1) && b[..|b|] == b;
    }
  }

  /** A log that ends in a term after that of the committed entry, and agrees with a leader that
      had the prefix, has it too. */
  lemma LaterTermHasPrefix(h: History, ids: set<NodeId>, r: CommitRecord, start: Log)
    requires HistOk(h, ids) && RecordOk(h, ids, r) && LogOk(h, start)
    requires LastTerm(start) > h.elections[r.term].log[r.index].leaderTerm && LastTerm(start) in h.elections
    requires Prefix(h, r.term, r.index) <= h.elections[LastTerm(start)].log
    ensures Prefix(h, r.term, r.index) <= start
  {
    var p, g, last := Prefix(h, r.term, r.index), h.elections[LastTerm(start)].log, |start| - 1;
    assert EntryOk(h, start, last) && start[..last + 1] == start;
    assert g[last] == start[last];
    if last <= r.index {
      assert g[last] == p[last];
      assert ElectionOk(h, ids, r.term);
      TermsSorted(h, ids, h.elections[r.term].log, last, r.index);
    }
  }

  lemma LastTermElected(h: History, ids: set<NodeId>, log: Log)
    requires HistOk(h, ids) && LogOk(h, log) && LastTerm(log) > 0
    ensures LastTerm(log) in h.elections
  {
    assert |log| > 1;
    assert EntryOk(h, log, |log| - 1);
  }

  /** What a voter holds, the candidate it votes for holds, given that every leader between
      the two terms does. */
  lemma VoteCarriesPrefix(h: History, ids: set<NodeId>, r: CommitRecord, b: Log, start: Log, t: Term)
    requires HistOk(h, ids) && RecordOk(h, ids, r) && LogOk(h, b) && LogOk(h, start)
    requires Prefix(h, r.term, r.index) <= b
    requires UpToDate(LastTerm(start), LastIndex(start), b) && LastTerm(start) < t
    requires forall u | u in h.elections && r.term < u < t :: Prefix(h, r.term, r.index) <= h.elections[u].log
    ensures Prefix(h, r.term, r.index) <= start
  {
    if LastTerm(b) == LastTerm(start) {
      SameLastTerm(h, ids, b, start);
    } else {
      assert b[r.index] == Prefix(h, r.term, r.index)[r.index];
      TermsSorted(h, ids, b, r.index, |b| - 1);
      LastTermElected(h, ids, start);
      LaterTermHasPrefix(h, ids, r, start);
    }
  }

  /** Among the voters of a later leader, one had confirmed the committed index, and voted
      with the prefix or after it was superseded. */
  lemma SomeVoterKept(h: History, ids: set<NodeId>, r: CommitRecord, t: Term) returns (v: NodeId)
    requires HistOk(h, ids) && RecordOk(h, ids, r) && t in h.elections && r.term < t
    ensures VotedFor(h, v, t, h.elections[t].leader)
    ensures Holds(h, h.ballots[VoteKey(v, t)].log, r.term, r.index, t - 1)
  {
    assert ElectionOk(h, ids, t);
    v := MajoritiesIntersect(r.quorum, h.elections[t].voters, ids);
    var a := Ack(v, r.term, r.index);
    assert a in h.acks && AckOk(h, a);
    assert BallotKeepsAck(h, VoteKey(v, t), a);
  }

  /** Section 5.4 of the Raft paper: every leader of a later term starts with all that was
      committed before. */
  lemma {:induction false} LeaderHasCommitted(h: History, ids: set<NodeId>, r: CommitRecord, t: Term)
    requires HistOk(h, ids) && RecordOk(h, ids, r) && t in h.elections && r.term < t
    ensures Prefix(h, r.term, r.index) <= h.elections[t].start
    decreases t
  {
    var p, e := Prefix(h, r.term, r.index), h.elections[t];
    forall u | u in h.elections && r.term < u < t ensures p <= h.elections[u].start <= h.elections[u].log {
      LeaderHasCommitted(h, ids, r, u);
      assert ElectionOk(h, ids, u);
    }
    var v := SomeVoterKept(h, ids, r, t);
    assert !Superseded(h, r.term, r.index, t - 1);
    StartIsUpToDate(h, ids, t, v);
    VoteCarriesPrefix(h, ids, r, h.ballots[VoteKey(v, t)].log, e.start, t);
  }

  /** The election restriction of section 5.4.1, as the history records it. */
  lemma StartIsUpToDate(h: History, ids: set<NodeId>, t: Term, v: NodeId)
    requires HistOk(h, ids) && t in h.elections && VotedFor(h, v, t, h.elections[t].leader)
    ensures var start := h.elections[t].start; var b := h.ballots[VoteKey(v, t)].log;
            && LogOk(h, b) && LogOk(h, start)
            && UpToDate(LastTerm(start), LastIndex(start), b) && LastTerm(start) < t
  {
    assert ElectionOk(h, ids, t);
    assert BallotOk(h, VoteKey(v, t));
    LogOkPrefix(h, h.elections[t].log, |h.elections[t].start|);
  }

  lemma RecordExtended(h: History, ids: set<NodeId>, r: CommitRecord, t: Term)
    requires HistOk(h, ids) && RecordOk(h, ids, r) && t in h.elections && r.term <= t
    ensures Prefix(h, r.term, r.index) <= h.elections[t].log
  {
    if r.term < t {
      LeaderHasCommitted(h, ids, r, t);
      assert ElectionOk(h, ids, t);
    }
  }

  lemma StartsWithSentinel(h: History, ids: set<NodeId>, t: Term)
    requires HistOk(h, ids) && t in h.elections
    ensures [SENTINEL] <= h.elections[t].log
  {
    assert ElectionOk(h, ids, t);
  }

  /** Whoever leads a term has in its log all that was committed by then. */
  lemma LeaderExtendsCommitted(h: History, ids: set<NodeId>, term: Term, p: Log, t: Term)
    requires HistOk(h, ids) && RecordsOk(h, ids) && CommittedBy(h, term, p) && t in h.elections && term <= t
    ensures p <= h.elections[t].log
  {
    hide HistOk, RecordOk;
    StartsWithSentinel(h, ids, t);
    if !(p <= [SENTINEL]) {
      var r :| r in h.commits && Covers(h, r, term, p);
      RecordExtended(h, ids, r, t);
    }
  }

  lemma BothInOneLog(p1: Log, p2: Log, log: Log)
    requires p1 <= log && p2 <= log
    ensures p1 <= p2 || p2 <= p1
  {
  }

  /** Any two committed logs agree: one is a prefix of the other. */
  lemma CommittedAgree(h: History, ids: set<NodeId>, t1: Term, p1: Log, t2: Term, p2: Log)
    requires HistOk(h, ids) && RecordsOk(h, ids) && CommittedBy(h, t1, p1) && CommittedBy(h, t2, p2)
    ensures p1 <= p2 || p2 <= p1
  {
    hide HistOk, RecordOk;
    SentinelAgrees(h, ids, t1, p1);
    SentinelAgrees(h, ids, t2, p2);
    if !(p1 <= [SENTINEL]) && !(p2 <= [SENTINEL]) {
      var r1 :| r1 in h.commits && Covers(h, r1, t1, p1);
      var r2 :| r2 in h.commits && Covers(h, r2, t2, p2);
      var t := Max(r1.term, r2.term);
      RecordExtended(h, ids, r1, t);
      RecordExtended(h, ids, r2, t);
      BothInOneLog(p1, p2, h.elections[t].log);
    }
  }

  lemma SentinelAgrees(h: History, ids: set<NodeId>, t: Term, p: Log)
    requires HistOk(h, ids) && RecordsOk(h, ids) && CommittedBy(h, t, p)
    ensures p <= [SENTINEL] || [SENTINEL] <= p
  {
    if !(p <= [SENTINEL]) {
      var r :| r in h.commits && Covers(h, r, t, p);
      assert RecordOk(h, ids, r);
      assert ElectionOk(h, ids, r.term);
    }
  }
}

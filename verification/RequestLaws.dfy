/** What accepting an AppendEntries request means for any log and any request, in terms of
    the log's entries; no run and no guard is assumed. */
module RequestLaws {
  import opened Options
  import opened Messages
  import opened NodeSpec

  /** `log` holds the request's entries right after `prev`. */
  predicate Contains(log: Log, prev: nat, entries: Log) {
    && prev + |entries| < |log|
    && forall k | 0 <= k < |entries| :: log[prev + 1 + k] == entries[k]
  }

  /** The merged log holds the entries and everything up to `prev`; it is the old log if that
      held the entries already, and ends with the entries otherwise. No other log does so. */
  lemma MergedIsUnique(log: Log, prev: nat, entries: Log, m: Log)
    requires prev < |log|
    ensures m == Merged(log, prev, entries) <==>
            && Contains(m, prev, entries) && m[..prev + 1] == log[..prev + 1]
            && (Contains(log, prev, entries) ==> m == log)
            && (!Contains(log, prev, entries) ==> |m| == prev + 1 + |entries|)
  {
    var wanted := log[..prev + 1] + entries;
    assert wanted <= log <==> Contains(log, prev, entries);
    assert Contains(wanted, prev, entries);
    if Contains(m, prev, entries) && m[..prev + 1] == log[..prev + 1] && |m| == prev + 1 + |entries| {
      assert m == wanted;
    }
  }

  /** The reply confirms exactly the last entry of the request. */
  lemma ReplyIsExact(s: NodeState, req: AppendEntriesRequest)
    requires Accepts(SeeTerm(s, req.leaderTerm), req)
    ensures HandleAppendReq(s, req).1 == AppendEntriesResponse(req.leaderTerm, Some(req.prevLogIndex + |req.entries|))
  {
    var s1 := SeeTerm(s, req.leaderTerm);
    MergedIsUnique(s1.log, req.prevLogIndex, req.entries, Merged(s1.log, req.prevLogIndex, req.entries));
  }

  /** Handling a request a second time changes nothing and gives the same reply. */
  lemma HandlingIsIdempotent(s: NodeState, req: AppendEntriesRequest)
    ensures var (s', resp) := HandleAppendReq(s, req); HandleAppendReq(s', req) == (s', resp)
  {
    var s1 := SeeTerm(s, req.leaderTerm);
    if Accepts(s1, req) {
      var prev, entries := req.prevLogIndex, req.entries;
      var m := Merged(s1.log, prev, entries);
      MergedIsUnique(s1.log, prev, entries, m);
      MergedIsUnique(m, prev, entries, m);
      assert m[prev] == m[..prev + 1][prev];
    }
  }
}

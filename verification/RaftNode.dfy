/** The consensus node as the source has it: an object whose handlers assign its fields.
    Every handler is proved equal to its function in NodeSpec, and every tick to a sequence
    of cluster actions. */
module RaftNode {
  import opened Options
  import opened Messages
  import opened NodeSpec
  import opened Clients
  import opened Cluster
  import opened NodeActions

  datatype NodeRole = FOLLOWER | CANDIDATE | LEADER

  datatype LeaderState = LeaderState(nextIndex: map<NodeId, nat>, matchIndex: map<NodeId, nat>)

  datatype Envelope<T> = Envelope(sender: NodeId, body: T)

  /** A confirmation raises the indices of its sender, just so far that what is confirmed counts as held
      and is not sent again; a rejection takes the next index one back, and below 0 to the largest
      64-bit number. */
  predicate Hears(l: LeaderState, l': LeaderState, resp: AppendEntriesResponse, who: NodeId) {
    && l'.nextIndex.Keys == l.nextIndex.Keys + {who}
    && (forall id | id in l.nextIndex && id != who :: l'.nextIndex[id] == l.nextIndex[id])
    && match resp.matchedUntil
       case None =>
         && l'.matchIndex == l.matchIndex
         && (Lookup(l.nextIndex, who) > 0 ==> l'.nextIndex[who] + 1 == Lookup(l.nextIndex, who))
         && (Lookup(l.nextIndex, who) == 0 ==> l'.nextIndex[who] == 0xFFFF_FFFF_FFFF_FFFF)
       case Some(k) =>
         && who in l'.matchIndex && l'.matchIndex == l.matchIndex[who := l'.matchIndex[who]]
         && LeastOf(l'.matchIndex[who], Lookup(l.matchIndex, who), k)
         && LeastOf(l'.nextIndex[who], Lookup(l.nextIndex, who), l'.matchIndex[who] + 1)
  }

  /** `m` is the least number that is neither below `a` nor below `b`. */
  predicate LeastOf(m: nat, a: nat, b: nat) {
    a <= m && b <= m && (m == a || m == b)
  }

  /** The members of the cluster in the order of the source's map of channels. */
  function Members(channels: seq<NodeId>): set<NodeId> {
    set id | id in channels
  }

  predicate Distinct(channels: seq<NodeId>) {
    forall i, j | 0 <= i < j < |channels| :: channels[i] != channels[j]
  }

  lemma {:induction false} MembersCount(channels: seq<NodeId>)
    requires Distinct(channels)
    ensures |Members(channels)| == |channels|
  {
    if channels != [] {
      var k := |channels| - 1;
      MembersCount(channels[..k]);
      assert Members(channels) == Members(channels[..k]) + {channels[k]};
    }
  }

  // Packets to several members, in order

  function RequestsTo(s: NodeState, me: NodeId, to: seq<NodeId>): (r: seq<Packet>)
    requires forall k | 0 <= k < |to| :: SendDefined(s, to[k])
    ensures |r| == |to|
    ensures forall k | 0 <= k < |to| :: r[k] == Packet(me, to[k], AppendReq(AppendRequestFor(s, me, to[k])))
  {
    seq(|to|, k requires 0 <= k < |to| && SendDefined(s, to[k]) =>
      Packet(me, to[k], AppendReq(AppendRequestFor(s, me, to[k]))))
  }

  lemma RequestsSnoc(s: NodeState, me: NodeId, to: seq<NodeId>, i: nat)
    requires i < |to| && forall k | 0 <= k < |to| :: SendDefined(s, to[k])
    ensures RequestsTo(s, me, to[..i + 1])
         == RequestsTo(s, me, to[..i]) + [Packet(me, to[i], AppendReq(AppendRequestFor(s, me, to[i])))]
  {
  }

  function VotesTo(request: RequestVoteRequest, me: NodeId, to: seq<NodeId>): (r: seq<Packet>)
    ensures |r| == |to| && forall k | 0 <= k < |to| :: r[k] == Packet(me, to[k], VoteReq(request))
  {
    seq(|to|, k requires 0 <= k < |to| => Packet(me, to[k], VoteReq(request)))
  }

  function Bag(packets: seq<Packet>): set<Packet> {
    set p | p in packets
  }

  lemma RequestsBag(s: NodeState, me: NodeId, to: seq<NodeId>)
    requires forall k | 0 <= k < |to| :: SendDefined(s, to[k])
    ensures forall id | id in Members(to) :: SendDefined(s, id)
    ensures Bag(RequestsTo(s, me, to)) == AppendRequests(s, me, Members(to))
  {
    var r := RequestsTo(s, me, to);
    forall p | p in AppendRequests(s, me, Members(to)) ensures p in Bag(r) {
      var k :| 0 <= k < |to| && to[k] == p.to;
      assert r[k] == p;
    }
  }

  lemma VotesBag(s: NodeState, me: NodeId, to: seq<NodeId>)
    requires s.log != []
    ensures Bag(VotesTo(VoteRequestOf(s, me), me, to)) == VoteRequests(s, me, Members(to))
  {
    var r := VotesTo(VoteRequestOf(s, me), me, to);
    forall p | p in VoteRequests(s, me, Members(to)) ensures p in Bag(r) {
      var k :| 0 <= k < |to| && to[k] == p.to;
      assert r[k] == p;
    }
  }

  class Node {
    const myId: NodeId
    const channels: seq<NodeId>

    var currentTerm: Term
    var votedFor: Option<NodeId>
    var log: Log
    var commitIndex: nat

    var role: NodeRole
    var candidateState: Option<set<NodeId>>
    var leaderState: Option<LeaderState>

    var appendRequests: seq<Envelope<AppendEntriesRequest>>
    var voteRequests: seq<Envelope<RequestVoteRequest>>
    var appendResponses: seq<Envelope<AppendEntriesResponse>>
    var voteResponses: seq<Envelope<RequestVoteResponse>>

    var commandQueries: seq<CommandQuery>
    var commandAnswers: map<nat, seq<Command>>

    var incomingCommands: seq<Request>
    var itemsToResponse: map<nat, Future>
    var answers: map<Future, AddCommandResult>
    ghost var dropped: set<Future>

    /** Everything the channels carried, in order. */
    var sent: seq<Packet>

    ghost predicate Valid()
      reads this
    {
      && log != [] && myId in channels && Distinct(channels)
      && (role == CANDIDATE <==> candidateState.Some?)
      && (role == LEADER <==> leaderState.Some?)
    }

    function State(): NodeState
      requires Valid()
      reads this
    {
      NodeState(currentTerm, votedFor, log, commitIndex,
        match role
        case FOLLOWER => Follower
        case CANDIDATE => Candidate(candidateState.value)
        case LEADER => Leader(leaderState.value.nextIndex, leaderState.value.matchIndex))
    }

    ghost function Ids(): set<NodeId> { Members(channels) }

    ghost function Clerk(): Desk
      reads this
    {
      Desk(incomingCommands, itemsToResponse, answers, dropped)
    }

    /** The node and its clients, as NodeActions sees them. */
    ghost function View(): Local
      requires Valid()
      reads this
    {
      Local(State(), Clerk())
    }

    constructor (id: NodeId, members: seq<NodeId>)
      requires id in members && Distinct(members)
      ensures Valid() && State() == INITIAL && Clerk() == EMPTY && sent == []
      ensures currentTerm == 0 && votedFor == None && log == [LogItem("", 0)] && commitIndex == 0 && role == FOLLOWER
      ensures myId == id && channels == members
    {
      myId, channels := id, members;
      currentTerm, votedFor, log, commitIndex := 0, None, [SENTINEL], 0;
      role, candidateState, leaderState := FOLLOWER, None, None;
      appendRequests, voteRequests, appendResponses, voteResponses := [], [], [], [];
      commandQueries, commandAnswers := [], map[];
      incomingCommands, itemsToResponse, answers, dropped := [], map[], map[], {};
      sent := [];
    }

    // Role transitions

    method BecomeFollower()
      requires Valid()
      modifies `role, `votedFor, `candidateState, `leaderState
      ensures Valid() && State() == old(State()).(votedFor := None, role := Follower)
    {
      role := FOLLOWER;
      votedFor := None;
      candidateState := None;
      leaderState := None;
    }

    method ObserveTerm(term: Term)
      requires Valid()
      modifies `currentTerm, `role, `votedFor, `candidateState, `leaderState
      ensures Valid() && State() == SeeTerm(old(State()), term)
    {
      if currentTerm < term {
        currentTerm := term;
        BecomeFollower();
      }
    }

    method BecomeCandidate()
      requires Valid()
      modifies `currentTerm, `role, `votedFor, `candidateState, `leaderState, `sent
      ensures Valid() && State() == NodeSpec.BecomeCandidate(old(State()), myId)
      ensures currentTerm == old(currentTerm) + 1 && votedFor == Some(myId)
      ensures role == CANDIDATE && candidateState == Some({})
      ensures sent == old(sent) + VotesTo(VoteRequestOf(State(), myId), myId, channels)
    {
      currentTerm := currentTerm + 1;
      votedFor := Some(myId);
      SendRequestVoteToAll();
      role := CANDIDATE;
      candidateState := Some({});
      leaderState := None;
    }

    method SendRequestVoteToAll()
      requires Valid()
      modifies `sent
      ensures Valid() && State() == old(State())
      ensures sent == old(sent) + VotesTo(VoteRequestOf(State(), myId), myId, channels)
    {
      var request := RequestVoteRequest(currentTerm, myId, |log| - 1, log[|log| - 1].leaderTerm);
      for i := 0 to |channels|
        invariant sent == old(sent) + VotesTo(request, myId, channels[..i])
      {
        sent := sent + [Packet(myId, channels[i], VoteReq(request))];
        assert VotesTo(request, myId, channels[..i + 1])
            == VotesTo(request, myId, channels[..i]) + [Packet(myId, channels[i], VoteReq(request))];
      }
      assert channels[..|channels|] == channels;
    }

    method BecomeLeader()
      requires Valid()
      modifies `role, `votedFor, `candidateState, `leaderState, `sent
      ensures Valid() && State() == NodeSpec.BecomeLeader(old(State()), Ids())
      ensures role == LEADER && votedFor == None
      ensures leaderState == Some(LeaderState(map id | id in Ids() :: |log|, map id | id in Ids() :: 0))
      ensures forall k | 0 <= k < |channels| :: SendDefined(State(), channels[k])
      ensures sent == old(sent) + RequestsTo(State(), myId, channels)
    {
      votedFor := None;
      candidateState := None;
      var start := StartIndices();
      leaderState := Some(start);
      role := LEADER;
      assert forall k | 0 <= k < |channels| :: channels[k] in Ids();
      SendAppendEntriesToAll();
    }

    /** The indices a new leader starts from. */
    method StartIndices() returns (r: LeaderState)
      ensures r == LeaderState(map id | id in Ids() :: |log|, map id | id in Ids() :: 0)
    {
      var next: map<NodeId, nat>, matched: map<NodeId, nat> := map[], map[];
      for i := 0 to |channels|
        invariant next == map id | id in Members(channels[..i]) :: |log|
        invariant matched == map id | id in Members(channels[..i]) :: 0
      {
        assert Members(channels[..i + 1]) == Members(channels[..i]) + {channels[i]};
        next := next[channels[i] := |log|];
        matched := matched[channels[i] := 0];
      }
      assert Members(channels[..|channels|]) == Ids();
      r := LeaderState(next, matched);
    }

    // Replication

    /** A leader sends all entries from the next index on, if there are any or this is a
        heartbeat; any other node sends nothing. Outside the log the source reads past the
        vector, so a leader must keep the next index inside. */
    method SendAppendEntriesToSomeone(who: NodeId, heartbeat: bool)
      requires Valid() && (role == LEADER ==> SendDefined(State(), who))
      modifies `sent
      ensures Valid() && State() == old(State())
      ensures sent == old(sent) +
        if role == LEADER && (heartbeat || Lookup(leaderState.value.nextIndex, who) <= |log| - 1)
        then [Packet(myId, who, AppendReq(AppendRequestFor(State(), myId, who)))] else []
      ensures role == LEADER && heartbeat ==>
        var next := Lookup(leaderState.value.nextIndex, who);
        sent == old(sent) + [Packet(myId, who, AppendReq(AppendEntriesRequest(
          currentTerm, myId, next - 1, log[next - 1].leaderTerm, log[next..], commitIndex)))]
    {
      if role != LEADER {
        return;
      }
      var next := Lookup(leaderState.value.nextIndex, who);
      if |log| - 1 < next && !heartbeat {
        return;
      }
      var logToSend: Log := [];
      for i := next to |log|
        invariant logToSend == log[next..i]
      {
        logToSend := logToSend + [log[i]];
      }
      assert log[next..|log|] == log[next..];
      var request := AppendEntriesRequest(
        currentTerm, myId, next - 1, log[next - 1].leaderTerm, logToSend, commitIndex);
      sent := sent + [Packet(myId, who, AppendReq(request))];
    }

    method SendAppendEntriesToAll()
      requires Valid() && (role == LEADER ==> forall k | 0 <= k < |channels| :: SendDefined(State(), channels[k]))
      modifies `sent
      ensures Valid() && State() == old(State())
      ensures sent == old(sent) + if role == LEADER then RequestsTo(State(), myId, channels) else []
    {
      ghost var s, was := State(), sent;
      for i := 0 to |channels|
        invariant Valid() && State() == s
        invariant role == LEADER ==> sent == was + RequestsTo(s, myId, channels[..i])
        invariant role != LEADER ==> sent == was
      {
        SendAppendEntriesToSomeone(channels[i], true);
        if role == LEADER {
          RequestsSnoc(s, myId, channels, i);
        }
      }
      assert channels[..|channels|] == channels;
    }

    // AppendEntries requests

    /** The loop over the request's entries. */
    method MergeEntries(prev: nat, entries: Log)
      requires prev < |log|
      modifies `log
      ensures log == Merged(old(log), prev, entries) && prev < |log|
    {
      ghost var start := log;
      var pos := 0;
      while pos < |entries|
        invariant pos <= |entries| && prev + pos < |log|
        invariant log == Merged(start, prev, entries[..pos])
        invariant log[..prev + pos + 1] == start[..prev + 1] + entries[..pos]
      {
        MergeOneMore(start, prev, entries, pos);
        if |log| > prev + pos + 1 {
          if log[prev + pos + 1] == entries[pos] {
            pos := pos + 1;
            continue;
          }
          log := log[..prev + pos + 1];
        }
        log := log + [entries[pos]];
        pos := pos + 1;
      }
      assert entries[..|entries|] == entries;
    }

    method AnswerQueueWith(leader: NodeId)
      modifies `incomingCommands, `answers
      ensures Clerk() == Redirect(old(Clerk()), leader)
      ensures incomingCommands == [] && RedirectedTo(answers, old(incomingCommands), leader)
    {
      RedirectedAll(Clerk(), leader);
      hide RedirectedTo;
      var newCommands := incomingCommands;
      incomingCommands := [];
      ghost var start := old(Clerk());
      for i := 0 to |newCommands|
        invariant Redirect(Clerk().(incoming := newCommands[i..]), leader) == Redirect(start, leader)
        invariant incomingCommands == []
      {
        answers := answers[newCommands[i].future := Redirected(leader)];
        assert newCommands[i..][1..] == newCommands[i + 1..];
      }
    }

    method HandleAppendEntriesRequest(req: AppendEntriesRequest) returns (resp: AppendEntriesResponse)
      requires Valid()
      modifies `currentTerm, `role, `votedFor, `candidateState, `leaderState, `log, `commitIndex
      modifies `incomingCommands, `answers
      ensures Valid() && (State(), resp) == HandleAppendReq(old(State()), req)
      ensures var s := SeeTerm(old(State()), req.leaderTerm);
              Clerk() == if req.leaderTerm < s.term || s.role.Leader? then old(Clerk())
                         else Redirect(old(Clerk()), req.leaderId)
      ensures currentTerm == resp.currentTerm == Max(old(currentTerm), req.leaderTerm)
      ensures if old(currentTerm) < req.leaderTerm then role == FOLLOWER && votedFor == None
              else role == old(role) && votedFor == old(votedFor)
      ensures resp.matchedUntil.Some? <==> old(currentTerm) <= req.leaderTerm && Fits(old(log), req)
      ensures log == if resp.matchedUntil.Some? then Merged(old(log), req.prevLogIndex, req.entries) else old(log)
      ensures commitIndex == if resp.matchedUntil.Some? && old(commitIndex) < req.leaderCommit
                             then Min(req.leaderCommit, req.prevLogIndex + |req.entries|) else old(commitIndex)
      ensures old(currentTerm) <= req.leaderTerm && role != LEADER ==>
        incomingCommands == [] && RedirectedTo(answers, old(incomingCommands), req.leaderId)
    {
      hide Redirect, Merged, RedirectedTo;
      ObserveTerm(req.leaderTerm);
      if req.leaderTerm < currentTerm {
        return AppendEntriesResponse(currentTerm, None);
      }
      if role != LEADER {
        AnswerQueueWith(req.leaderId);
      }
      if |log| <= req.prevLogIndex {
        return AppendEntriesResponse(currentTerm, None);
      }
      if log[req.prevLogIndex].leaderTerm != req.prevLogTerm {
        return AppendEntriesResponse(currentTerm, None);
      }
      MergeEntries(req.prevLogIndex, req.entries);
      if req.leaderCommit > commitIndex {
        commitIndex := Min(req.leaderCommit, req.prevLogIndex + |req.entries|);
      }
      return AppendEntriesResponse(currentTerm, Some(Min(|log| - 1, req.prevLogIndex + |req.entries|)));
    }

    // Votes

    method HandleRequestVoteRequest(req: RequestVoteRequest) returns (resp: RequestVoteResponse)
      requires Valid()
      modifies `currentTerm, `role, `votedFor, `candidateState, `leaderState
      ensures Valid() && (State(), resp) == HandleVoteReq(old(State()), req)
      ensures currentTerm == Max(old(currentTerm), req.candidateTerm)
      ensures if old(currentTerm) < req.candidateTerm then role == FOLLOWER else role == old(role)
      ensures resp.voteGranted <==>
        && old(currentTerm) <= req.candidateTerm
        && (old(currentTerm) < req.candidateTerm || old(votedFor) in {None, Some(req.candidateId)})
        && (log[|log| - 1].leaderTerm < req.lastLogTerm
            || (log[|log| - 1].leaderTerm == req.lastLogTerm && |log| - 1 <= req.lastLogIndex))
      ensures votedFor == if resp.voteGranted then Some(req.candidateId)
                          else if old(currentTerm) < req.candidateTerm then None else old(votedFor)
      ensures resp.candidateTerm == if resp.voteGranted then req.candidateTerm else 0
      ensures resp.currentTerm == if req.candidateTerm < currentTerm then 0 else currentTerm
    {
      ObserveTerm(req.candidateTerm);
      if req.candidateTerm < currentTerm {
        return RequestVoteResponse(0, false, 0);
      }
      if votedFor.GetOr(req.candidateId) == req.candidateId {
        var lastTerm, lastIndex := log[|log| - 1].leaderTerm, |log| - 1;
        if lastTerm < req.lastLogTerm || (lastTerm == req.lastLogTerm && lastIndex <= req.lastLogIndex) {
          votedFor := Some(req.candidateId);
          return RequestVoteResponse(currentTerm, true, req.candidateTerm);
        }
      }
      return RequestVoteResponse(currentTerm, false, 0);
    }

    method HandleRequestVoteResponse(resp: RequestVoteResponse, fromWho: NodeId)
      requires Valid()
      modifies `currentTerm, `role, `votedFor, `candidateState, `leaderState, `sent
      ensures Valid() && State() == HandleVoteResp(old(State()), resp, fromWho, Ids())
      ensures if Wins(SeeTerm(old(State()), resp.currentTerm), resp, fromWho, |Ids()|)
              then (forall k | 0 <= k < |channels| :: SendDefined(State(), channels[k]))
                   && sent == old(sent) + RequestsTo(State(), myId, channels)
              else sent == old(sent)
      ensures currentTerm == Max(old(currentTerm), resp.currentTerm)
      ensures old(currentTerm) < resp.currentTerm ==> role == FOLLOWER && votedFor == None
      ensures old(role) != CANDIDATE ==> role != CANDIDATE && (role == LEADER ==> old(role) == LEADER)
      ensures old(role) == CANDIDATE && resp.currentTerm <= old(currentTerm) ==>
        var votes := old(candidateState).value + {fromWho};
        if !resp.voteGranted || resp.candidateTerm != currentTerm then
          role == CANDIDATE && candidateState == old(candidateState)
        else if |votes| > |channels| - |votes| then role == LEADER
        else role == CANDIDATE && candidateState == Some(votes)
    {
      MembersCount(channels);
      ObserveTerm(resp.currentTerm);
      if role != CANDIDATE {
        return;
      }
      if !resp.voteGranted {
        return;
      }
      if resp.candidateTerm != currentTerm {
        return;
      }
      candidateState := Some(candidateState.value + {fromWho});
      if |candidateState.value| * 2 >= |channels| + 1 {
        BecomeLeader();
      }
    }

    // Replies to the leader

    method HandleAppendEntriesResponse(resp: AppendEntriesResponse, fromWho: NodeId)
      requires Valid()
      modifies `currentTerm, `role, `votedFor, `candidateState, `leaderState
      ensures Valid() && State() == HandleAppendResp(old(State()), resp, fromWho)
      ensures currentTerm == Max(old(currentTerm), resp.currentTerm)
      ensures role == if old(currentTerm) < resp.currentTerm then FOLLOWER else old(role)
      ensures role == LEADER ==> Hears(old(leaderState).value, leaderState.value, resp, fromWho)
    {
      ObserveTerm(resp.currentTerm);
      if role != LEADER {
        return;
      }
      var next, matched := leaderState.value.nextIndex, leaderState.value.matchIndex;
      if resp.matchedUntil.None? {
        leaderState := Some(LeaderState(next[fromWho := Decrement(Lookup(next, fromWho))], matched));
        return;
      }
      matched := matched[fromWho := Max(Lookup(matched, fromWho), resp.matchedUntil.value)];
      next := next[fromWho := Max(Lookup(next, fromWho), matched[fromWho] + 1)];
      leaderState := Some(LeaderState(next, matched));
    }

    // Commitment and new commands

    /** The nested loops of the commit rule: the last index in range that a majority holds. */
    method FindIndexToCommit() returns (found: Option<nat>)
      requires Valid() && role == LEADER
      ensures found.GetOr(commitIndex) == HighestHeld(leaderState.value.matchIndex, |Ids()|, commitIndex, |log| - 1)
      ensures found.Some? ==> commitIndex < found.value
    {
      MembersCount(channels);
      var matched := leaderState.value.matchIndex;
      found := None;
      var i := commitIndex + 1;
      while i <= |log| - 1
        invariant commitIndex < i && (|log| <= commitIndex + 1 ==> i == commitIndex + 1)
        invariant i <= |log| || i == commitIndex + 1
        invariant found.Some? ==> commitIndex < found.value < i && IsMajority(|Holders(matched, found.value)|, |Ids()|)
        invariant forall j | found.GetOr(commitIndex) < j < i :: !IsMajority(|Holders(matched, j)|, |Ids()|)
      {
        var cnt := CountHolders(matched, i);
        if cnt * 2 >= |channels| + 1 {
          found := Some(i);
        }
        i := i + 1;
      }
      HighestHeldIsLast(matched, |Ids()|, commitIndex, |log| - 1, found.GetOr(commitIndex));
    }

    method AnswerCommitted(index: nat)
      requires Valid() && commitIndex < index
      modifies `itemsToResponse, `answers
      ensures Clerk() == Persist(old(Clerk()), commitIndex, index)
    {
      ghost var start := Clerk();
      var i := commitIndex + 1;
      while i <= index
        invariant commitIndex < i <= index + 1
        invariant Persist(Clerk(), i - 1, index) == Persist(start, commitIndex, index)
      {
        if i in itemsToResponse {
          answers := answers[itemsToResponse[i] := Persisted];
          itemsToResponse := itemsToResponse - {i};
        }
        i := i + 1;
      }
    }

    method CommitIfPossible()
      requires Valid() && role == LEADER
      modifies `commitIndex, `itemsToResponse, `answers
      ensures Valid() && State() == NodeSpec.CommitIfPossible(old(State()), |Ids()|)
      ensures Clerk() == Persist(old(Clerk()), old(commitIndex), commitIndex)
    {
      var idToCommit := FindIndexToCommit();
      if idToCommit.None? {
        return;
      }
      AnswerCommitted(idToCommit.value);
      commitIndex := idToCommit.value;
    }

    method AddOneToLog(request: Request)
      requires Valid()
      modifies `log, `itemsToResponse, `dropped
      ensures Valid() && State() == old(State()).(log := old(log) + [LogItem(request.command, currentTerm)])
      ensures Clerk().(incoming := []) == AcceptHead(old(Clerk()).(incoming := [request]), |old(log)|)
    {
      log := log + [LogItem(request.command, currentTerm)];
      ghost var index := |log| - 1;
      dropped := if index in itemsToResponse then dropped + {itemsToResponse[index]} else dropped;
      itemsToResponse := itemsToResponse[|log| - 1 := request.future];
    }

    /** The queue is empty and its commands end the log, in their order and with the current term, each
        with its future waiting at its index. */
    predicate AppendedLast(queue: seq<Request>)
      reads this
    {
      incomingCommands == [] && EndsWith(log, itemsToResponse, queue, currentTerm)
    }

    method AddNewCommandsToLog()
      requires Valid()
      modifies `incomingCommands, `log, `itemsToResponse, `dropped
      ensures Valid() && State() == AppendCommands(old(State()), Commands(old(incomingCommands)))
      ensures Clerk() == Accept(old(Clerk()), |old(log)|)
      ensures |log| == |old(log)| + |old(incomingCommands)| && old(log) <= log && AppendedLast(old(incomingCommands))
    {
      hide Accept, AcceptHead, EndsWith;
      var newCommands := incomingCommands;
      incomingCommands := [];
      ghost var start, first, commands := old(Clerk()), log, Commands(newCommands);
      for i := 0 to |newCommands|
        invariant incomingCommands == [] && Valid() && |log| == |first| + i
        invariant log == first + NewItems(commands[..i], currentTerm)
        invariant Accept(Clerk().(incoming := newCommands[i..]), |log|) == Accept(start, |first|)
      {
        ghost var before := Clerk();
        AddOneToLog(newCommands[i]);
        NewItemsSnoc(first, commands, i, currentTerm);
        AcceptStep(before, newCommands, i, |log| - 1, Clerk());
      }
      assert commands[..|newCommands|] == commands;
      assert newCommands[|newCommands|..] == [];
      AcceptNone(Clerk(), |log|);
      QueueEndsLog(start, first, currentTerm);
    }

    method AddCommand(command: Command, future: Future)
      requires Valid()
      modifies `incomingCommands
      ensures Valid() && State() == old(State()) && Clerk() == Submit(old(Clerk()), Request(command, future))
      ensures incomingCommands == old(incomingCommands) + [Request(command, future)]
    {
      incomingCommands := incomingCommands + [Request(command, future)];
    }

    /** HandleGetPersistentCommandRequests, for one request: committed commands from `from`. */
    method PersistentCommands(from: nat, count: nat) returns (result: seq<Command>)
      requires Valid() && commitIndex < |log|
      ensures result == CommandsBetween(log, from, Min(from + count, commitIndex + 1))
      ensures IsAnswer(result, from, count, log, commitIndex)
    {
      CommandsAt(log, from, Min(from + count, commitIndex + 1));
      result := [];
      var i := from;
      while i < from + count && i <= commitIndex
        invariant if i == from then result == []
                  else from < i <= Min(from + count, commitIndex + 1) && result == CommandsBetween(log, from, i)
      {
        result := result + [log[i].command];
        i := i + 1;
      }
    }

    /** The queries queued for the next tick; index 0 holds no command. */
    method GetPersistentCommands(from: nat, count: nat, future: nat)
      modifies `commandQueries
      ensures commandQueries == old(commandQueries) + [CommandQuery(if from == 0 then 1 else from, count, future)]
    {
      var start := from;
      if start == 0 {
        start := 1;
      }
      commandQueries := commandQueries + [CommandQuery(start, count, future)];
    }

    /** The source reads only inside its log: nothing is asked, or the commit index is inside. */
    predicate QueriesDefined()
      reads this
    {
      commandQueries == [] || commitIndex < |log|
    }

    /** The answer to a query, the last one if it was asked again, has as many committed commands as
        there are and were asked for, from the index asked for on. */
    method HandleGetPersistentCommandRequests()
      requires Valid() && QueriesDefined()
      modifies `commandQueries, `commandAnswers
      ensures Valid() && View() == old(View()) && commandQueries == []
      ensures commandAnswers == AnswerQueries(old(commandAnswers), old(commandQueries), log, commitIndex)
      ensures Answered(old(commandAnswers), old(commandQueries), log, commitIndex, commandAnswers)
    {
      hide Answered, IsAnswer, CommandsBetween;
      QueriesAreAnswered(commandAnswers, commandQueries, log, commitIndex);
      var queries := commandQueries;
      commandQueries := [];
      for i := 0 to |queries|
        invariant commandQueries == []
        invariant commandAnswers == AnswerQueries(old(commandAnswers), queries[..i], log, commitIndex)
      {
        assert queries[..i + 1][..i] == queries[..i];
        var result := PersistentCommands(queries[i].from, queries[i].count);
        commandAnswers := commandAnswers[queries[i].future := result];
      }
      assert queries[..|queries|] == queries;
    }

    // The mailbox

    method AddMessage(id: NodeId, message: Message)
      requires Valid()
      modifies `appendRequests, `voteRequests, `appendResponses, `voteResponses
      ensures Valid() && View() == old(View())
      ensures Mail() == match message
                        case AppendReq(req) => old(Mail()).(appendReqs := old(appendRequests) + [Envelope(id, req)])
                        case VoteReq(req) => old(Mail()).(voteReqs := old(voteRequests) + [Envelope(id, req)])
                        case AppendResp(resp) =>
                          old(Mail()).(appendResps := old(appendResponses) + [Envelope(id, resp)])
                        case VoteResp(resp) => old(Mail()).(voteResps := old(voteResponses) + [Envelope(id, resp)])
    {
      match message
      case AppendReq(req) => appendRequests := appendRequests + [Envelope(id, req)];
      case VoteReq(req) => voteRequests := voteRequests + [Envelope(id, req)];
      case AppendResp(resp) => appendResponses := appendResponses + [Envelope(id, resp)];
      case VoteResp(resp) => voteResponses := voteResponses + [Envelope(id, resp)];
    }

    ghost function Mail(): Mailbox
      reads this
    {
      Mailbox(appendRequests, voteRequests, appendResponses, voteResponses)
    }

    /** From `before`, with `n` packets sent, the node has performed `actions`. */
    ghost predicate Performed(before: Local, n: nat, actions: seq<Action>)
      reads this
    {
      Valid() && n <= |sent| && ActsTo(before, myId, Ids(), actions, View(), Bag(sent[n..]))
    }

    /** One more action, whose packets were just appended to `sent`. */
    lemma PerformedOneMore(before: Local, n: nat, actions: seq<Action>, last: Local, was: seq<Packet>,
                           a: Action, out: seq<Packet>)
      requires Valid() && n <= |was| && ActsTo(before, myId, Ids(), actions, last, Bag(was[n..]))
      requires LocalDefined(last, Ids(), a) && View() == LocalAct(last, myId, Ids(), a)
      requires sent == was + out && Bag(out) == Act(last.node, myId, Ids(), a).1
      ensures Performed(before, n, actions + [a])
    {
      hide LocalAct, Act;
      OneMoreAct(before, myId, Ids(), actions, last, Bag(was[n..]), a);
      BagConcat(was, n, out);
    }

    method ProcessAppendRequests(batch: seq<Envelope<AppendEntriesRequest>>) returns (ghost actions: seq<Action>)
      requires Valid()
      modifies `currentTerm, `role, `votedFor, `candidateState, `leaderState, `log, `commitIndex
      modifies `incomingCommands, `answers, `sent
      ensures old(sent) <= sent && Performed(old(View()), |old(sent)|, actions)
      ensures actions == AppendReqActions(myId, batch)
    {
      hide LocalAct, Act, HandleAppendReq, HandleVoteReq, HandleAppendResp, HandleVoteResp;
      actions := [];
      ghost var before, n := View(), |sent|;
      assert sent[n..] == [];
      for i := 0 to |batch|
        invariant old(sent) <= sent && Performed(before, n, actions)
        invariant actions == AppendReqActions(myId, batch)[..i]
      {
        ghost var last, was := View(), sent;
        var resp := HandleAppendEntriesRequest(batch[i].body);
        sent := sent + [Packet(myId, batch[i].sender, AppendResp(resp))];
        ghost var a := Deliver(Packet(batch[i].sender, myId, AppendReq(batch[i].body)));
        AppendReqAct(last, myId, Ids(), a.packet);
        PerformedOneMore(before, n, actions, last, was, a, [Packet(myId, batch[i].sender, AppendResp(resp))]);
        actions := actions + [a];
      }
    }

    method ProcessVoteRequests(batch: seq<Envelope<RequestVoteRequest>>) returns (ghost actions: seq<Action>)
      requires Valid()
      modifies `currentTerm, `role, `votedFor, `candidateState, `leaderState, `sent
      ensures old(sent) <= sent && Performed(old(View()), |old(sent)|, actions)
      ensures actions == VoteReqActions(myId, batch)
    {
      hide LocalAct, Act, HandleAppendReq, HandleVoteReq, HandleAppendResp, HandleVoteResp;
      actions := [];
      ghost var before, n := View(), |sent|;
      assert sent[n..] == [];
      for i := 0 to |batch|
        invariant old(sent) <= sent && Performed(before, n, actions)
        invariant actions == VoteReqActions(myId, batch)[..i]
      {
        ghost var last, was := View(), sent;
        var resp := HandleRequestVoteRequest(batch[i].body);
        sent := sent + [Packet(myId, batch[i].sender, VoteResp(resp))];
        ghost var a := Deliver(Packet(batch[i].sender, myId, VoteReq(batch[i].body)));
        VoteReqAct(last, myId, Ids(), a.packet);
        PerformedOneMore(before, n, actions, last, was, a, [Packet(myId, batch[i].sender, VoteResp(resp))]);
        actions := actions + [a];
      }
    }

    method ProcessAppendResponses(batch: seq<Envelope<AppendEntriesResponse>>) returns (ghost actions: seq<Action>)
      requires Valid()
      modifies `currentTerm, `role, `votedFor, `candidateState, `leaderState
      ensures Performed(old(View()), |sent|, actions)
      ensures actions == AppendRespActions(myId, batch)
    {
      hide LocalAct, Act, HandleAppendReq, HandleVoteReq, HandleAppendResp, HandleVoteResp;
      actions := [];
      ghost var before, n := View(), |sent|;
      assert sent[n..] == [];
      for i := 0 to |batch|
        invariant Performed(before, n, actions)
        invariant actions == AppendRespActions(myId, batch)[..i]
      {
        ghost var last, was := View(), sent;
        HandleAppendEntriesResponse(batch[i].body, batch[i].sender);
        ghost var a := Deliver(Packet(batch[i].sender, myId, AppendResp(batch[i].body)));
        AppendRespAct(last, myId, Ids(), a.packet);
        PerformedOneMore(before, n, actions, last, was, a, []);
        actions := actions + [a];
      }
    }

    method ProcessVoteResponses(batch: seq<Envelope<RequestVoteResponse>>) returns (ghost actions: seq<Action>)
      requires Valid()
      modifies `currentTerm, `role, `votedFor, `candidateState, `leaderState, `sent
      ensures old(sent) <= sent && Performed(old(View()), |old(sent)|, actions)
      ensures actions == VoteRespActions(myId, batch)
    {
      hide LocalAct, Act, HandleAppendReq, HandleVoteReq, HandleAppendResp, HandleVoteResp;
      actions := [];
      ghost var before, n := View(), |sent|;
      assert sent[n..] == [];
      for i := 0 to |batch|
        invariant old(sent) <= sent && Performed(before, n, actions)
        invariant actions == VoteRespActions(myId, batch)[..i]
      {
        ghost var last, was := View(), sent;
        HandleRequestVoteResponse(batch[i].body, batch[i].sender);
        ghost var a := Deliver(Packet(batch[i].sender, myId, VoteResp(batch[i].body)));
        VoteRespAct(last, myId, Ids(), a.packet);
        ghost var wins := Wins(SeeTerm(last.node, batch[i].body.currentTerm), batch[i].body, batch[i].sender, |Ids()|);
        ghost var out := if wins then RequestsTo(State(), myId, channels) else [];
        if wins {
          RequestsBag(State(), myId, channels);
        }
        PerformedOneMore(before, n, actions, last, was, a, out);
        actions := actions + [a];
      }
    }

    /** What was performed before, and then some more. */
    lemma PerformedThen(before: Local, n: nat, first: seq<Action>, mid: Local, was: seq<Packet>, more: seq<Action>)
      requires n <= |was| && was <= sent && ActsTo(before, myId, Ids(), first, mid, Bag(was[n..]))
      requires Performed(mid, |was|, more)
      ensures Performed(before, n, first + more)
    {
      hide ActsTo;
      ActsCompose(before, myId, Ids(), first, mid, Bag(was[n..]), more, View(), Bag(sent[|was|..]));
      assert sent == was + sent[|was|..];
      BagConcat(was, n, sent[|was|..]);
    }

    /** The queues are moved out before anything is handled. */
    method TakeMail() returns (mail: Mailbox)
      requires Valid()
      modifies `appendRequests, `voteRequests, `appendResponses, `voteResponses
      ensures Valid() && View() == old(View())
      ensures mail == old(Mail()) && Mail() == Mailbox([], [], [], [])
    {
      mail := Mailbox(appendRequests, voteRequests, appendResponses, voteResponses);
      appendRequests, voteRequests, appendResponses, voteResponses := [], [], [], [];
    }

    method ProcessRequests(aeReqs: seq<Envelope<AppendEntriesRequest>>, rvReqs: seq<Envelope<RequestVoteRequest>>)
      returns (ghost actions: seq<Action>)
      requires Valid()
      modifies `currentTerm, `role, `votedFor, `candidateState, `leaderState, `log, `commitIndex
      modifies `incomingCommands, `answers, `sent
      ensures old(sent) <= sent && Performed(old(View()), |old(sent)|, actions)
      ensures actions == AppendReqActions(myId, aeReqs) + VoteReqActions(myId, rvReqs)
    {
      hide ActsTo, State;
      ghost var before, n := View(), |sent|;
      actions := ProcessAppendRequests(aeReqs);
      ghost var mid, was := View(), sent;
      ghost var more := ProcessVoteRequests(rvReqs);
      PerformedThen(before, n, actions, mid, was, more);
      actions := actions + more;
    }

    method ProcessReplies(aeResps: seq<Envelope<AppendEntriesResponse>>, rvResps: seq<Envelope<RequestVoteResponse>>)
      returns (ghost actions: seq<Action>)
      requires Valid()
      modifies `currentTerm, `role, `votedFor, `candidateState, `leaderState, `sent
      ensures old(sent) <= sent && Performed(old(View()), |old(sent)|, actions)
      ensures actions == AppendRespActions(myId, aeResps) + VoteRespActions(myId, rvResps)
    {
      hide ActsTo, State;
      ghost var before, n := View(), |sent|;
      actions := ProcessAppendResponses(aeResps);
      ghost var mid, was := View(), sent;
      ghost var more := ProcessVoteResponses(rvResps);
      PerformedThen(before, n, actions, mid, was, more);
      actions := actions + more;
    }

    method ProcessMail(mail: Mailbox) returns (ghost actions: seq<Action>)
      requires Valid()
      modifies `currentTerm, `role, `votedFor, `candidateState, `leaderState, `log, `commitIndex
      modifies `incomingCommands, `answers, `sent
      ensures old(sent) <= sent && Performed(old(View()), |old(sent)|, actions)
      ensures actions == MailActions(myId, mail)
    {
      hide ActsTo, State, Clerk;
      ghost var before, n := View(), |sent|;
      actions := ProcessRequests(mail.appendReqs, mail.voteReqs);
      ghost var mid, was := View(), sent;
      ghost var more := ProcessReplies(mail.appendResps, mail.voteResps);
      PerformedThen(before, n, actions, mid, was, more);
      actions := actions + more;
    }

    lemma QueueWaits(before: Local, n: nat, actions: seq<Action>)
      requires Performed(before, n, actions) && before.node.role.Leader?
      requires forall k | 0 <= k < |actions| :: actions[k].Deliver?
      ensures role == LEADER ==> incomingCommands == before.desk.incoming
    {
      hide ActsTo;
      LeadingKeepsQueue(before, myId, Ids(), actions, View(), Bag(sent[n..]));
    }

    /** Each message in the mailbox is delivered once: requests before replies, and each kind
        in order of arrival. */
    method HandleIncomingMessages() returns (ghost actions: seq<Action>)
      requires Valid()
      modifies this
      ensures old(sent) <= sent && Performed(old(View()), |old(sent)|, actions)
      ensures actions == MailActions(myId, old(Mail()))
      ensures HandlesInOrder(myId, old(Mail()), actions)
      ensures Mail() == Mailbox([], [], [], [])
      ensures commandQueries == old(commandQueries) && commandAnswers == old(commandAnswers)
      ensures old(role) == LEADER && role == LEADER ==> incomingCommands == old(incomingCommands)
    {
      ghost var before, n, leads := View(), |sent|, role == LEADER;
      assert leads ==> before.node.role.Leader? && before.desk.incoming == incomingCommands;
      hide ActsTo, State, Clerk;
      var mail := TakeMail();
      MailInOrder(myId, mail);
      hide MailActions, Performed, HandlesInOrder;
      actions := ProcessMail(mail);
      if leads {
        QueueWaits(before, n, actions);
      }
    }

    // Ticks

    /** `expired` is what the election timer says after the messages. */
    method TickFollower(expired: bool) returns (ghost actions: seq<Action>)
      requires Valid()
      modifies this
      ensures old(sent) <= sent && Performed(old(View()), |old(sent)|, actions)
      ensures actions == MailActions(myId, old(Mail())) + if expired then [Timeout(myId)] else []
      ensures Mail() == Mailbox([], [], [], [])
      ensures commandQueries == old(commandQueries) && commandAnswers == old(commandAnswers)
    {
      hide ActsTo, LocalAct, LocalDefined, Act;
      ghost var before, n := View(), |sent|;
      actions := HandleIncomingMessages();
      if expired {
        ghost var last, was := View(), sent;
        BecomeCandidate();
        VotesBag(State(), myId, channels);
        TimeoutAct(last, myId, Ids());
        ghost var out := VotesTo(VoteRequestOf(State(), myId), myId, channels);
        PerformedOneMore(before, n, actions, last, was, Timeout(myId), out);
        actions := actions + [Timeout(myId)];
      }
    }

    method SendAndRecord() returns (ghost actions: seq<Action>)
      requires Valid() && role == LEADER && forall k | 0 <= k < |channels| :: SendDefined(State(), channels[k])
      modifies `sent
      ensures old(sent) <= sent && Performed(old(View()), |old(sent)|, actions)
      ensures actions == [Replicate(myId)]
    {
      hide ActsTo, LocalAct, LocalDefined, Act;
      ghost var before := View();
      SendAppendEntriesToAll();
      RequestsBag(State(), myId, channels);
      ReplicateAct(before, myId, Ids());
      NothingPerformed(before);
      ghost var out := RequestsTo(State(), myId, channels);
      PerformedOneMore(before, |old(sent)|, [], before, old(sent), Replicate(myId), out);
      actions := [] + [Replicate(myId)];
    }

    method AppendAndRecord() returns (ghost actions: seq<Action>)
      requires Valid() && role == LEADER
      modifies `incomingCommands, `log, `itemsToResponse, `dropped
      ensures Performed(old(View()), |sent|, actions)
      ensures actions == [Append(myId, Commands(old(incomingCommands)))] && AppendedLast(old(incomingCommands))
    {
      hide ActsTo, LocalAct, LocalDefined, Act, Accept;
      ghost var before, commands := View(), Commands(incomingCommands);
      AppendAct(before, myId, Ids());
      AddNewCommandsToLog();
      NothingPerformed(before);
      PerformedOneMore(before, |sent|, [], before, sent, Append(myId, commands), []);
      actions := [] + [Append(myId, commands)];
    }

    lemma NothingPerformed(before: Local)
      ensures forall n, was: seq<Packet> | n == |was| :: ActsTo(before, myId, Ids(), [], before, Bag(was[n..]))
    {
      forall n, was: seq<Packet> | n == |was| ensures Bag(was[n..]) == {} {
        assert was[n..] == [];
      }
    }

    /** Replication and new commands, the part of a leader's tick that follows the messages.
        `defined` is false when a next index has left the log; the source then reads outside
        its log, and nothing is said of what follows. */
    method ReplicateAndAppend() returns (defined: bool, ghost actions: seq<Action>)
      requires Valid() && role == LEADER
      modifies `sent, `incomingCommands, `log, `itemsToResponse, `dropped
      ensures old(sent) <= sent && Performed(old(View()), |old(sent)|, actions)
      ensures defined <==> forall k | 0 <= k < |channels| :: SendDefined(old(State()), channels[k])
      ensures !defined ==> View() == old(View())
      ensures actions == if defined then [Replicate(myId), Append(myId, Commands(old(incomingCommands)))] else []
      ensures defined ==> AppendedLast(old(incomingCommands))
    {
      hide ActsTo, SendDefined;
      ghost var before, n := View(), |sent|;
      actions := [];
      NothingPerformed(before);
      defined := forall k | 0 <= k < |channels| :: SendDefined(State(), channels[k]);
      if defined {
        actions := SendAndRecord();
        ghost var mid, was := View(), sent;
        ghost var more := AppendAndRecord();
        PerformedThen(before, n, actions, mid, was, more);
        actions := actions + more;
      }
    }

    method CommitAndRecord() returns (ghost actions: seq<Action>)
      requires Valid() && role == LEADER
      modifies `commitIndex, `itemsToResponse, `answers
      ensures Performed(old(View()), |sent|, actions) && actions == [Commit(myId)]
    {
      hide ActsTo, LocalAct, LocalDefined, Act, Persist;
      ghost var before := View();
      CommitAct(before, myId, Ids());
      CommitIfPossible();
      NothingPerformed(before);
      PerformedOneMore(before, |sent|, [], before, sent, Commit(myId), []);
      actions := [] + [Commit(myId)];
    }

    /** What every tick of a leader begins with. */
    method CommitAndMail() returns (ghost actions: seq<Action>)
      requires Valid() && role == LEADER
      modifies this
      ensures old(sent) <= sent && Performed(old(View()), |old(sent)|, actions)
      ensures actions == [Commit(myId)] + MailActions(myId, old(Mail()))
      ensures Mail() == Mailbox([], [], [], [])
      ensures commandQueries == old(commandQueries) && commandAnswers == old(commandAnswers)
      ensures role == LEADER ==> incomingCommands == old(incomingCommands)
    {
      hide ActsTo, State, Clerk;
      ghost var before, n := View(), |sent|;
      actions := CommitAndRecord();
      ghost var mid, was := View(), sent;
      ghost var more := HandleIncomingMessages();
      PerformedThen(before, n, actions, mid, was, more);
      actions := actions + more;
    }

    /** A leader that goes on replicates and then appends the queue of its clients. */
    method TickLeader() returns (defined: bool, ghost actions: seq<Action>)
      requires Valid() && role == LEADER
      modifies this
      ensures old(sent) <= sent && Performed(old(View()), |old(sent)|, actions)
      ensures var begun := [Commit(myId)] + MailActions(myId, old(Mail()));
              actions == if role == LEADER && defined
                         then begun + [Replicate(myId), Append(myId, Commands(old(incomingCommands)))] else begun
      ensures role == LEADER && defined ==> AppendedLast(old(incomingCommands))
      ensures Mail() == Mailbox([], [], [], [])
      ensures commandQueries == old(commandQueries) && commandAnswers == old(commandAnswers)
      ensures !defined ==> role == LEADER && exists k | 0 <= k < |channels| :: !SendDefined(State(), channels[k])
    {
      hide ActsTo, SendDefined, Clerk, MailActions, AppendedLast;
      ghost var before, n := View(), |sent|;
      actions := CommitAndMail();
      defined := true;
      if role == LEADER {
        ghost var mid, was := View(), sent;
        ghost var more;
        defined, more := ReplicateAndAppend();
        PerformedThen(before, n, actions, mid, was, more);
        actions := actions + more;
      }
    }

    /** A tick answers the queries and is then a sequence of cluster actions of this node: a leader
        commits, handles its mail and, if it still leads, replicates and appends; any other node
        handles its mail and may run for election, even if the mail has just made it leader.
        `defined` is false when the source reads outside its log. */
    method Tick(expired: bool) returns (defined: bool, ghost actions: seq<Action>)
      requires Valid()
      modifies this
      ensures old(sent) <= sent && Performed(old(View()), |old(sent)|, actions)
      ensures !old(QueriesDefined()) ==> !defined && actions == []
      ensures old(QueriesDefined()) ==>
        && commandQueries == [] && Mail() == Mailbox([], [], [], [])
        && (old(commandQueries) == [] || old(commitIndex) < |old(log)|)
        && commandAnswers == AnswerQueries(old(commandAnswers), old(commandQueries), old(log), old(commitIndex))
      ensures old(QueriesDefined()) && old(role) == LEADER ==>
        var begun := [Commit(myId)] + MailActions(myId, old(Mail()));
        actions == if role == LEADER && defined
                   then begun + [Replicate(myId), Append(myId, Commands(old(incomingCommands)))] else begun
      ensures old(QueriesDefined()) && old(role) == LEADER && role == LEADER && defined ==>
        AppendedLast(old(incomingCommands))
      ensures old(QueriesDefined()) && old(role) != LEADER ==>
        defined && actions == MailActions(myId, old(Mail())) + if expired then [Timeout(myId)] else []
      ensures old(QueriesDefined()) ==>
        && (forall e | e in old(appendRequests) :: Handled(myId, e.sender, AppendReq(e.body)) in actions)
        && (forall e | e in old(voteRequests) :: Handled(myId, e.sender, VoteReq(e.body)) in actions)
        && (forall e | e in old(appendResponses) :: Handled(myId, e.sender, AppendResp(e.body)) in actions)
        && (forall e | e in old(voteResponses) :: Handled(myId, e.sender, VoteResp(e.body)) in actions)
      ensures old(QueriesDefined()) && !defined ==>
        role == LEADER && exists k | 0 <= k < |channels| :: !SendDefined(State(), channels[k])
    {
      hide ActsTo, State, Clerk, SendDefined, MailActions, AppendedLast;
      MailIsHandled(myId, Mail());
      if !QueriesDefined() {
        NothingPerformed(View());
        return false, [];
      }
      HandleGetPersistentCommandRequests();
      if role == LEADER {
        defined, actions := TickLeader();
      } else {
        actions := TickFollower(expired);
        defined := true;
      }
    }
  }

  /** Node `me` handles a message. */
  function Handled(me: NodeId, sender: NodeId, message: Message): Action {
    Deliver(Packet(sender, me, message))
  }

  function MailActions(me: NodeId, mail: Mailbox): seq<Action> {
    AppendReqActions(me, mail.appendReqs) + VoteReqActions(me, mail.voteReqs)
    + AppendRespActions(me, mail.appendResps) + VoteRespActions(me, mail.voteResps)
  }

  /** Every message is handled once: requests before replies, each kind in order of arrival. */
  predicate HandlesInOrder(me: NodeId, mail: Mailbox, actions: seq<Action>) {
    var b := |mail.appendReqs|;
    var c := b + |mail.voteReqs|;
    var d := c + |mail.appendResps|;
    && |actions| == d + |mail.voteResps|
    && (forall i | 0 <= i < b ::
          actions[i] == Handled(me, mail.appendReqs[i].sender, AppendReq(mail.appendReqs[i].body)))
    && (forall i | b <= i < c ::
          actions[i] == Handled(me, mail.voteReqs[i - b].sender, VoteReq(mail.voteReqs[i - b].body)))
    && (forall i | c <= i < d ::
          actions[i] == Handled(me, mail.appendResps[i - c].sender, AppendResp(mail.appendResps[i - c].body)))
    && (forall i | d <= i < |actions| ::
          actions[i] == Handled(me, mail.voteResps[i - d].sender, VoteResp(mail.voteResps[i - d].body)))
  }

  lemma MailInOrder(me: NodeId, mail: Mailbox)
    ensures HandlesInOrder(me, mail, MailActions(me, mail))
    ensures forall k | 0 <= k < |MailActions(me, mail)| :: MailActions(me, mail)[k].Deliver?
  {
  }

  /** So no message is left unhandled. */
  lemma MailIsHandled(me: NodeId, mail: Mailbox)
    ensures var actions := MailActions(me, mail);
            && (forall e | e in mail.appendReqs :: Handled(me, e.sender, AppendReq(e.body)) in actions)
            && (forall e | e in mail.voteReqs :: Handled(me, e.sender, VoteReq(e.body)) in actions)
            && (forall e | e in mail.appendResps :: Handled(me, e.sender, AppendResp(e.body)) in actions)
            && (forall e | e in mail.voteResps :: Handled(me, e.sender, VoteResp(e.body)) in actions)
  {
    MailInOrder(me, mail);
    hide MailActions;
    var a, b, c := |mail.appendReqs|, |mail.voteReqs|, |mail.appendResps|;
    var actions := MailActions(me, mail);
    forall e | e in mail.appendReqs ensures Handled(me, e.sender, AppendReq(e.body)) in actions {
      var k :| 0 <= k < a && mail.appendReqs[k] == e;
      assert actions[k] in actions;
    }
    forall e | e in mail.voteReqs ensures Handled(me, e.sender, VoteReq(e.body)) in actions {
      var k :| 0 <= k < |mail.voteReqs| && mail.voteReqs[k] == e;
      assert actions[a + k] in actions;
    }
    forall e | e in mail.appendResps ensures Handled(me, e.sender, AppendResp(e.body)) in actions {
      var k :| 0 <= k < |mail.appendResps| && mail.appendResps[k] == e;
      assert actions[a + b + k] in actions;
    }
    forall e | e in mail.voteResps ensures Handled(me, e.sender, VoteResp(e.body)) in actions {
      var k :| 0 <= k < |mail.voteResps| && mail.voteResps[k] == e;
      assert actions[a + b + c + k] in actions;
    }
  }

  /** The four queues of a node. */
  datatype Mailbox = Mailbox(
    appendReqs: seq<Envelope<AppendEntriesRequest>>,
    voteReqs: seq<Envelope<RequestVoteRequest>>,
    appendResps: seq<Envelope<AppendEntriesResponse>>,
    voteResps: seq<Envelope<RequestVoteResponse>>)

  lemma BagConcat(was: seq<Packet>, n: nat, out: seq<Packet>)
    requires n <= |was|
    ensures Bag((was + out)[n..]) == Bag(was[n..]) + Bag(out)
  {
    assert (was + out)[n..] == was[n..] + out;
  }

  // The deliveries a batch of messages stands for

  function AppendReqActions(me: NodeId, batch: seq<Envelope<AppendEntriesRequest>>): (r: seq<Action>)
    ensures |r| == |batch|
    ensures forall k | 0 <= k < |r| :: r[k] == Deliver(Packet(batch[k].sender, me, AppendReq(batch[k].body)))
  {
    seq(|batch|, k requires 0 <= k < |batch| => Deliver(Packet(batch[k].sender, me, AppendReq(batch[k].body))))
  }

  function VoteReqActions(me: NodeId, batch: seq<Envelope<RequestVoteRequest>>): (r: seq<Action>)
    ensures |r| == |batch|
    ensures forall k | 0 <= k < |r| :: r[k] == Deliver(Packet(batch[k].sender, me, VoteReq(batch[k].body)))
  {
    seq(|batch|, k requires 0 <= k < |batch| => Deliver(Packet(batch[k].sender, me, VoteReq(batch[k].body))))
  }

  function AppendRespActions(me: NodeId, batch: seq<Envelope<AppendEntriesResponse>>): (r: seq<Action>)
    ensures |r| == |batch|
    ensures forall k | 0 <= k < |r| :: r[k] == Deliver(Packet(batch[k].sender, me, AppendResp(batch[k].body)))
  {
    seq(|batch|, k requires 0 <= k < |batch| => Deliver(Packet(batch[k].sender, me, AppendResp(batch[k].body))))
  }

  function VoteRespActions(me: NodeId, batch: seq<Envelope<RequestVoteResponse>>): (r: seq<Action>)
    ensures |r| == |batch|
    ensures forall k | 0 <= k < |r| :: r[k] == Deliver(Packet(batch[k].sender, me, VoteResp(batch[k].body)))
  {
    seq(|batch|, k requires 0 <= k < |batch| => Deliver(Packet(batch[k].sender, me, VoteResp(batch[k].body))))
  }

  lemma NewItemsSnoc(log: Log, commands: seq<Command>, i: nat, term: Term)
    requires i < |commands|
    ensures log + NewItems(commands[..i + 1], term)
         == log + NewItems(commands[..i], term) + [LogItem(commands[i], term)]
  {
  }

  /** The last entries are the queued commands, in order, with their futures waiting for them. */
  predicate EndsWith(log: Log, waiting: map<nat, Future>, queue: seq<Request>, term: Term) {
    && |queue| <= |log|
    && var n := |log| - |queue|;
    forall i: nat | n <= i < |log| ::
      log[i] == LogItem(queue[i - n].command, term) && i in waiting && waiting[i] == queue[i - n].future
  }

  lemma QueueEndsLog(d: Desk, log: Log, term: Term)
    ensures EndsWith(log + NewItems(Commands(d.incoming), term), Accept(d, |log|).waiting, d.incoming, term)
  {
    hide Accept, EndsWith, WaitInOrder;
    AcceptWaits(d, |log|);
    ItemsEndLog(log, NewItems(Commands(d.incoming), term), Accept(d, |log|).waiting, d.incoming, term);
  }

  lemma ItemsEndLog(log: Log, items: Log, waiting: map<nat, Future>, queue: seq<Request>, term: Term)
    requires items == NewItems(Commands(queue), term)
    requires WaitInOrder(queue, |log|, waiting)
    ensures EndsWith(log + items, waiting, queue, term)
  {
    forall i: nat | |log| <= i < |log| + |queue|
      ensures (log + items)[i] == LogItem(queue[i - |log|].command, term)
    {
      assert (log + items)[i] == items[i - |log|];
    }
  }

  /** The log has the entry before those of the request. */
  predicate Fits(log: Log, req: AppendEntriesRequest) {
    req.prevLogIndex < |log| && log[req.prevLogIndex].leaderTerm == req.prevLogTerm
  }

  /** Every queued future is answered with the leader's id. */
  predicate RedirectedTo(answers: map<Future, AddCommandResult>, queue: seq<Request>, leader: NodeId) {
    forall r | r in queue :: r.future in answers && answers[r.future] == Redirected(leader)
  }

  lemma {:induction false} RedirectedAll(d: Desk, leader: NodeId)
    ensures var d' := Redirect(d, leader);
            && d'.incoming == [] && RedirectedTo(d'.answers, d.incoming, leader)
            && forall f | f in d.answers && d.answers[f] == Redirected(leader) ::
                 f in d'.answers && d'.answers[f] == Redirected(leader)
    decreases |d.incoming|
  {
    if d.incoming != [] {
      var f := d.incoming[0].future;
      RedirectedAll(d.(incoming := d.incoming[1..], answers := d.answers[f := Redirected(leader)]), leader);
    }
  }

  lemma AcceptNone(d: Desk, length: nat)
    ensures Accept(d.(incoming := []), length) == d.(incoming := [])
  {
  }

  lemma AcceptStep(d: Desk, queue: seq<Request>, i: nat, length: nat, d': Desk)
    requires i < |queue| && d'.(incoming := []) == AcceptHead(d.(incoming := [queue[i]]), length)
    ensures Accept(d'.(incoming := queue[i + 1..]), length + 1) == Accept(d.(incoming := queue[i..]), length)
  {
    assert queue[i..][1..] == queue[i + 1..];
    assert d'.(incoming := queue[i + 1..]) == AcceptHead(d.(incoming := queue[i..]), length);
  }

  /** The commands at `from..upTo`. */
  function CommandsBetween(log: Log, from: nat, upTo: nat): seq<Command>
    requires upTo <= |log|
    decreases upTo
  {
    if upTo <= from then [] else CommandsBetween(log, from, upTo - 1) + [log[upTo - 1].command]
  }

  /** A client's question: commands from an index on, at most so many. */
  datatype CommandQuery = CommandQuery(from: nat, count: nat, future: nat)

  /** The answers after each query has been given the committed commands it asks for. */
  function AnswerQueries(answers: map<nat, seq<Command>>, queries: seq<CommandQuery>, log: Log,
                         commit: nat): map<nat, seq<Command>>
    requires queries == [] || commit < |log|
  {
    if queries == [] then answers
    else
      var k := |queries| - 1;
      var q := queries[k];
      AnswerQueries(answers, queries[..k], log, commit)
        [q.future := CommandsBetween(log, q.from, Min(q.from + q.count, commit + 1))]
  }

  lemma {:induction false} CommandsAt(log: Log, from: nat, end: nat)
    requires end <= |log|
    ensures var c := CommandsBetween(log, from, end);
            && |c| == (if from <= end then end - from else 0)
            && forall i | 0 <= i < |c| :: c[i] == log[from + i].command
    decreases end
  {
    if from < end {
      CommandsAt(log, from, end - 1);
    }
  }

  /** No later query is for the same future. */
  predicate AskedLast(queries: seq<CommandQuery>, j: nat)
    requires j < |queries|
  {
    forall k | j < k < |queries| :: queries[k].future != queries[j].future
  }

  predicate NotAsked(queries: seq<CommandQuery>, future: nat) {
    forall k | 0 <= k < |queries| :: queries[k].future != future
  }

  /** The commands of the log from `from` on: max(0, min(count, commit + 1 - from)) of them. */
  predicate IsAnswer(answer: seq<Command>, from: nat, count: nat, log: Log, commit: nat) {
    && from + |answer| == Max(from, Min(from + count, commit + 1))
    && forall i | 0 <= i < |answer| :: from + i < |log| && answer[i] == log[from + i].command
  }

  /** Each query, the last one of its future, is answered with the committed commands it asks for, and
      no other answer changes. */
  predicate Answered(answers: map<nat, seq<Command>>, queries: seq<CommandQuery>, log: Log, commit: nat,
                     r: map<nat, seq<Command>>)
  {
    && (forall j | 0 <= j < |queries| && AskedLast(queries, j) ::
          var q := queries[j]; q.future in r && IsAnswer(r[q.future], q.from, q.count, log, commit))
    && r.Keys == answers.Keys + (set q | q in queries :: q.future)
    && (forall f | f in answers && NotAsked(queries, f) :: r[f] == answers[f])
  }

  lemma OneMoreAnswered(answers: map<nat, seq<Command>>, queries: seq<CommandQuery>, log: Log, commit: nat,
                        r: map<nat, seq<Command>>, q: CommandQuery, answer: seq<Command>)
    requires Answered(answers, queries, log, commit, r) && IsAnswer(answer, q.from, q.count, log, commit)
    ensures Answered(answers, queries + [q], log, commit, r[q.future := answer])
  {
    var queries', r' := queries + [q], r[q.future := answer];
    hide IsAnswer;
    forall j | 0 <= j < |queries'| && AskedLast(queries', j)
      ensures queries'[j].future in r'
      ensures IsAnswer(r'[queries'[j].future], queries'[j].from, queries'[j].count, log, commit)
    {
      if j < |queries| {
        assert queries'[j] == queries[j] && queries'[|queries|] == q;
        assert AskedLast(queries, j) by {
          assert forall k | j < k < |queries| :: queries'[k] == queries[k];
        }
      }
    }
    forall f | f in answers && NotAsked(queries', f) ensures r'[f] == answers[f] {
      assert queries'[|queries|] == q;
      assert NotAsked(queries, f) by {
        assert forall k | 0 <= k < |queries| :: queries'[k] == queries[k];
      }
    }
  }

  lemma {:induction false} QueriesAreAnswered(answers: map<nat, seq<Command>>, queries: seq<CommandQuery>, log: Log,
                                              commit: nat)
    requires queries == [] || commit < |log|
    ensures Answered(answers, queries, log, commit, AnswerQueries(answers, queries, log, commit))
    decreases |queries|
  {
    hide Answered, IsAnswer, CommandsBetween;
    if queries == [] {
      NothingAnswered(answers, log, commit);
    } else {
      var k := |queries| - 1;
      var rest, q := queries[..k], queries[k];
      QueriesAreAnswered(answers, rest, log, commit);
      CommandsAnswer(log, q.from, q.count, commit);
      var answer := CommandsBetween(log, q.from, Min(q.from + q.count, commit + 1));
      OneMoreAnswered(answers, rest, log, commit, AnswerQueries(answers, rest, log, commit), q, answer);
      assert queries == rest + [q];
    }
  }

  lemma NothingAnswered(answers: map<nat, seq<Command>>, log: Log, commit: nat)
    ensures Answered(answers, [], log, commit, answers)
  {
  }

  lemma CommandsAnswer(log: Log, from: nat, count: nat, commit: nat)
    requires commit < |log|
    ensures IsAnswer(CommandsBetween(log, from, Min(from + count, commit + 1)), from, count, log, commit)
  {
    CommandsAt(log, from, Min(from + count, commit + 1));
    hide CommandsBetween;
  }

  function HoldersAmong(matched: map<NodeId, nat>, index: nat, ids: set<NodeId>): set<NodeId> {
    set id | id in ids && id in matched && matched[id] >= index
  }

  /** How many match indices reach `index`. */
  method CountHolders(matched: map<NodeId, nat>, index: nat) returns (cnt: nat)
    ensures cnt == |Holders(matched, index)|
  {
    cnt := 0;
    var rest := matched.Keys;
    ghost var done: set<NodeId> := {};
    while rest != {}
      invariant done !! rest && done + rest == matched.Keys
      invariant cnt == |HoldersAmong(matched, index, done)|
      decreases |rest|
    {
      var k :| k in rest;
      if matched[k] >= index {
        assert HoldersAmong(matched, index, done + {k}) == HoldersAmong(matched, index, done) + {k};
        cnt := cnt + 1;
      } else {
        assert HoldersAmong(matched, index, done + {k}) == HoldersAmong(matched, index, done);
      }
      rest, done := rest - {k}, done + {k};
    }
    assert Holders(matched, index) == HoldersAmong(matched, index, done);
  }

  /** The last index with a majority is the highest one. */
  lemma HighestHeldIsLast(matched: map<NodeId, nat>, total: nat, lo: nat, hi: nat, r: nat)
    requires r == lo || (lo < r <= hi && IsMajority(|Holders(matched, r)|, total))
    requires forall j | r < j <= hi :: !IsMajority(|Holders(matched, j)|, total)
    ensures r == HighestHeld(matched, total, lo, hi)
  {
    var best := HighestHeld(matched, total, lo, hi);
  }

  /** One more entry of the request, seen from the log merged so far. */
  lemma MergeOneMore(start: Log, prev: nat, entries: Log, pos: nat)
    requires prev < |start| && pos < |entries|
    ensures var l := Merged(start, prev, entries[..pos]); var n := prev + pos + 1;
            && n <= |l|
            && Merged(start, prev, entries[..pos + 1])
               == if |l| > n && l[n] == entries[pos] then l else l[..n] + [entries[pos]]
  {
    var done, more := start[..prev + 1] + entries[..pos], start[..prev + 1] + entries[..pos + 1];
    assert more == done + [entries[pos]];
    assert entries[..pos + 1][..pos] == entries[..pos];
  }
}

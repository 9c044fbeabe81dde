/** What becomes of client commands at one node: `incoming_commands_`, `items_to_response_`
    and the promises behind the futures (hw2/src/consensus/node.h, node.cpp). */
module Clients {
  import opened Messages

  type Future = nat

  /** The source's AddCommandResult: persisted, or the node that may lead. */
  datatype AddCommandResult = Persisted | Redirected(leader: NodeId)

  datatype Request = Request(command: Command, future: Future)

  /** `waiting` is keyed by log index. `dropped` records promises destroyed unanswered. */
  datatype Desk = Desk(
    incoming: seq<Request>,
    waiting: map<nat, Future>,
    answers: map<Future, AddCommandResult>,
    dropped: set<Future>)

  const EMPTY := Desk([], map[], map[], {})

  function Commands(requests: seq<Request>): (r: seq<Command>)
    ensures |r| == |requests| && forall k | 0 <= k < |r| :: r[k] == requests[k].command
  {
    seq(|requests|, k requires 0 <= k < |requests| => requests[k].command)
  }

  /** AddCommand: a new future joins the queue. */
  function Submit(d: Desk, request: Request): Desk {
    d.(incoming := d.incoming + [request])
  }

  /** A node that hears from a leader answers everything queued with that leader's id. */
  function Redirect(d: Desk, leader: NodeId): Desk
    decreases |d.incoming|
  {
    if d.incoming == [] then d
    else
      var rest := d.(incoming := d.incoming[1..], answers := d.answers[d.incoming[0].future := Redirected(leader)]);
      Redirect(rest, leader)
  }

  /** The first command of the queue goes to index `length`; a promise already waiting there
      is destroyed. */
  function AcceptHead(d: Desk, length: nat): Desk
    requires d.incoming != []
  {
    d.(incoming := d.incoming[1..],
       waiting := d.waiting[length := d.incoming[0].future],
       dropped := if length in d.waiting then d.dropped + {d.waiting[length]} else d.dropped)
  }

  /** A leader appends the queue to a log of length `length`. */
  function Accept(d: Desk, length: nat): Desk
    decreases |d.incoming|
  {
    if d.incoming == [] then d else Accept(AcceptHead(d, length), length + 1)
  }

  /** The promises waiting at `lo+1..hi` are answered as persisted. */
  function Persist(d: Desk, lo: nat, hi: nat): Desk
    decreases hi - lo
  {
    if hi <= lo then d
    else if lo + 1 in d.waiting then
      Persist(d.(waiting := d.waiting - {lo + 1}, answers := d.answers[d.waiting[lo + 1] := Persisted]), lo + 1, hi)
    else Persist(d, lo + 1, hi)
  }

  /** Each request of the queue waits at its own index, in order from `length` on. */
  predicate WaitInOrder(queue: seq<Request>, length: nat, waiting: map<nat, Future>) {
    forall i: nat | length <= i < length + |queue| :: i in waiting && waiting[i] == queue[i - length].future
  }

  /** Accepted commands wait in order, and what waited elsewhere waits on. */
  lemma {:induction false} AcceptWaits(d: Desk, length: nat)
    ensures WaitInOrder(d.incoming, length, Accept(d, length).waiting)
    ensures var w := Accept(d, length).waiting;
            forall i: nat | i < length || length + |d.incoming| <= i ::
              (i in w <==> i in d.waiting) && (i in w ==> w[i] == d.waiting[i])
    decreases |d.incoming|
  {
    if d.incoming != [] {
      AcceptWaits(AcceptHead(d, length), length + 1);
    }
  }
}

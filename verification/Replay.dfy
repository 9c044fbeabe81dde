/** The map a log of commands stands for. */
module Replay {
  import opened Messages
  import opened Storage

  // Writes are counted from 1, as log entries are; what is at position 0 is never applied.

  /** `store` after the writes at `lo+1..hi`, in order. */
  function ReplayFrom(store: map<Key, Value>, writes: seq<Assignment>, lo: nat, hi: nat): map<Key, Value>
    requires hi < |writes|
    decreases hi
  {
    if hi <= lo then store
    else ReplayFrom(store, writes, lo, hi - 1)[writes[hi].key := writes[hi].value]
  }

  /** The map after the writes at `1..n`. */
  function Replayed(writes: seq<Assignment>, n: nat): map<Key, Value>
    requires n < |writes|
  {
    ReplayFrom(map[], writes, 0, n)
  }

  /** Replaying up to `mid`, and from there on, is replaying at once. */
  lemma {:induction false} ReplayInSteps(store: map<Key, Value>, writes: seq<Assignment>, lo: nat, mid: nat, hi: nat)
    requires lo <= mid <= hi < |writes|
    ensures ReplayFrom(ReplayFrom(store, writes, lo, mid), writes, mid, hi) == ReplayFrom(store, writes, lo, hi)
    decreases hi
  {
    if mid < hi {
      ReplayInSteps(store, writes, lo, mid, hi - 1);
    }
  }

  /** Only the replayed part matters. */
  lemma {:induction false} ReplaySamePrefix(store: map<Key, Value>, a: seq<Assignment>, b: seq<Assignment>,
                                            lo: nat, hi: nat)
    requires hi < |a| && hi < |b| && a[..hi + 1] == b[..hi + 1]
    ensures ReplayFrom(store, a, lo, hi) == ReplayFrom(store, b, lo, hi)
    decreases hi
  {
    if lo < hi {
      SamePrefixBelow(a, b, hi);
      ReplaySamePrefix(store, a, b, lo, hi - 1);
    }
  }

  lemma SamePrefixBelow(a: seq<Assignment>, b: seq<Assignment>, hi: nat)
    requires 0 < hi < |a| && hi < |b| && a[..hi + 1] == b[..hi + 1]
    ensures a[hi] == b[hi] && a[..hi] == b[..hi]
  {
    assert a[hi] == a[..hi + 1][hi] && b[hi] == b[..hi + 1][hi];
    assert a[..hi] == a[..hi + 1][..hi] && b[..hi] == b[..hi + 1][..hi];
  }

  /** The write at `i` is to `key`, and none at `i+1..n` is. */
  predicate LastWrite(writes: seq<Assignment>, n: nat, key: Key, i: nat)
    requires n < |writes|
  {
    1 <= i <= n && writes[i].key == key && forall j | i < j <= n :: writes[j].key != key
  }

  /** A key reads as the value of the last write to it. */
  lemma {:induction false} LastWriteIsRead(writes: seq<Assignment>, n: nat, key: Key, i: nat)
    requires n < |writes| && LastWrite(writes, n, key, i)
    ensures key in Replayed(writes, n) && Replayed(writes, n)[key] == writes[i].value
    decreases n
  {
    if i < n {
      assert writes[n].key != key;
      LastWriteIsRead(writes, n - 1, key, i);
    }
  }

  /** A key is present only if some write was to it. */
  lemma {:induction false} PresentWasWritten(writes: seq<Assignment>, n: nat, key: Key) returns (i: nat)
    requires n < |writes| && key in Replayed(writes, n)
    ensures LastWrite(writes, n, key, i)
    decreases n
  {
    if writes[n].key == key {
      i := n;
    } else {
      i := PresentWasWritten(writes, n - 1, key);
    }
  }

  // The writes a log stands for

  function Writes(log: Log): (r: seq<Assignment>)
    ensures |r| == |log| && forall k | 0 <= k < |r| :: r[k] == Parse(log[k].command)
  {
    seq(|log|, k requires 0 <= k < |log| => Parse(log[k].command))
  }

  lemma WritesSamePrefix(a: Log, b: Log, n: nat)
    requires n <= |a| && n <= |b| && a[..n] == b[..n]
    ensures Writes(a)[..n] == Writes(b)[..n]
  {
    hide Parse;
    assert forall k | 0 <= k < n :: a[k] == a[..n][k] && b[k] == b[..n][k];
  }

  /** A written pair is what the map holds right after its command. */
  lemma WrittenPairIsHeld(log: Log, n: nat, key: Key, value: Value)
    requires 0 < n < |log| && log[n].command == Join(key, value)
    requires NoSpace(key) && NoSpace(value) && (key == "" ==> value == "")
    ensures key in Replayed(Writes(log), n) && Replayed(Writes(log), n)[key] == value
  {
    WriteIsReadBack(key, value);
  }
}

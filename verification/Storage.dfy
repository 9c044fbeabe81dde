/** The key-value map and the text of its commands (hw2/src/common/storage.h,
    hw2/src/worker/worker.cpp). */
module Storage {
  import opened Options

  type Key = string
  type Value = string

  /** The values stored under keys. */
  class Store {
    var values: map<Key, Value>

    constructor ()
      ensures values == map[]
    {
      values := map[];
    }

    function Get(key: Key): (r: Option<Value>)
      reads this
      ensures key in values ==> r == Some(values[key])
      ensures key !in values ==> r == None
    {
      if key in values then Some(values[key]) else None
    }

    method Set(key: Key, value: Value)
      modifies this
      ensures values == old(values)[key := value]
      ensures forall k :: Get(k) == if k == key then Some(value) else old(Get(k))
    {
      values := values[key := value];
    }
  }

  // Commands are a key and a value separated by blanks, read with operator>>.

  predicate IsSpace(c: char) {
    c == ' ' || c == '\t' || c == '\n' || c == '\r' || c == '\U{000B}' || c == '\U{000C}'
  }

  predicate NoSpace(s: string) {
    forall i | 0 <= i < |s| :: !IsSpace(s[i])
  }

  function SkipSpaces(s: string): string {
    if s != "" && IsSpace(s[0]) then SkipSpaces(s[1..]) else s
  }

  /** How many characters come before the first blank. */
  function TokenLength(s: string): (n: nat)
    ensures n <= |s|
  {
    if s == "" || IsSpace(s[0]) then 0 else 1 + TokenLength(s[1..])
  }

  lemma {:induction false} TokenEndsAtSpace(s: string)
    ensures var n := TokenLength(s); NoSpace(s[..n]) && (n < |s| ==> IsSpace(s[n]))
  {
    if s != "" && !IsSpace(s[0]) {
      var n := TokenLength(s);
      TokenEndsAtSpace(s[1..]);
      assert s[..n] == [s[0]] + s[1..][..n - 1];
    }
  }

  /** One extraction: the token, empty if there is none, and what is left. */
  function Extract(s: string): (string, string) {
    var t := SkipSpaces(s);
    (t[..TokenLength(t)], t[TokenLength(t)..])
  }

  datatype Assignment = Assignment(key: Key, value: Value)

  function Parse(command: string): Assignment {
    var (key, rest) := Extract(command);
    var (value, _) := Extract(rest);
    Assignment(key, value)
  }

  /** What Write sends through the log. */
  function Join(key: Key, value: Value): string {
    key + " " + value
  }

  lemma {:induction false} SkipKeepsTokens(s: string)
    requires s == "" || !IsSpace(s[0])
    ensures SkipSpaces(s) == s
  {
  }

  lemma {:induction false} TokenOf(s: string, rest: string)
    requires NoSpace(s) && (rest == "" || IsSpace(rest[0]))
    ensures TokenLength(s + rest) == |s|
  {
    if s == "" {
      assert s + rest == rest;
    } else {
      assert (s + rest)[1..] == s[1..] + rest;
      TokenOf(s[1..], rest);
    }
  }

  lemma ExtractToken(s: string, rest: string)
    requires NoSpace(s) && s != "" && (rest == "" || IsSpace(rest[0]))
    ensures Extract(s + rest) == (s, rest)
  {
    assert (s + rest)[0] == s[0];
    SkipKeepsTokens(s + rest);
    TokenOf(s, rest);
    assert (s + rest)[..|s|] == s && (s + rest)[|s|..] == rest;
  }

  lemma ExtractSkips(s: string)
    ensures Extract(" " + s) == Extract(s)
  {
    assert (" " + s)[1..] == s;
  }

  lemma ExtractedIsToken(s: string)
    ensures NoSpace(Extract(s).0)
  {
    TokenEndsAtSpace(SkipSpaces(s));
  }

  lemma ExtractNothing()
    ensures Extract("") == ("", "")
  {
  }

  lemma ExtractWhole(s: string)
    requires NoSpace(s)
    ensures Extract(s) == (s, "")
  {
    if s != "" {
      assert s + "" == s;
      ExtractToken(s, "");
    }
  }

  lemma {:induction false} SkippedAreSpaces(s: string) returns (blanks: string)
    ensures s == blanks + SkipSpaces(s) && forall i | 0 <= i < |blanks| :: IsSpace(blanks[i])
    ensures SkipSpaces(s) == "" || !IsSpace(SkipSpaces(s)[0])
  {
    if s != "" && IsSpace(s[0]) {
      var more := SkippedAreSpaces(s[1..]);
      blanks := [s[0]] + more;
      assert forall i | 0 <= i < |blanks| :: blanks[i] == if i == 0 then s[0] else more[i - 1];
      assert s == [s[0]] + s[1..];
    } else {
      blanks := "";
    }
  }

  /** Whatever the text, its first token is extracted: blanks are skipped, then everything up to the next
      blank is taken. */
  lemma FirstToken(s: string) returns (blanks: string)
    ensures var (token, rest) := Extract(s);
            && s == blanks + token + rest && (forall i | 0 <= i < |blanks| :: IsSpace(blanks[i]))
            && NoSpace(token) && (rest != "" ==> IsSpace(rest[0])) && (token == "" ==> rest == "")
  {
    blanks := SkippedAreSpaces(s);
    var t := SkipSpaces(s);
    TokenEndsAtSpace(t);
    hide IsSpace, SkipSpaces, NoSpace;
    assert t == t[..TokenLength(t)] + t[TokenLength(t)..];
    assert s == blanks + t;
  }

  /** Any command reads as its first two tokens. */
  lemma ParseIsFirstTokens(command: string) returns (before: string, between: string, rest: string)
    ensures var a := Parse(command);
            && command == before + a.key + between + a.value + rest
            && (forall i | 0 <= i < |before| :: IsSpace(before[i]))
            && (forall i | 0 <= i < |between| :: IsSpace(between[i]))
            && NoSpace(a.key) && NoSpace(a.value) && (rest != "" ==> IsSpace(rest[0]))
            && (a.key == "" ==> a.value == "") && (a.value == "" ==> rest == "")
            && (a.value != "" ==> between != "")
  {
    before := FirstToken(command);
    var tail := Extract(command).1;
    between := FirstToken(tail);
    rest := Extract(tail).1;
    var a := Parse(command);
    assert before + a.key + (between + a.value + rest) == before + a.key + between + a.value + rest;
  }

  /** What Write sends is read back as what was written exactly when neither part holds a
      blank, and the key is not empty unless the value is too. */
  lemma WriteIsReadBack(key: Key, value: Value)
    ensures Parse(Join(key, value)) == Assignment(key, value)
            <==> NoSpace(key) && NoSpace(value) && (key == "" ==> value == "")
  {
    var (k, rest) := Extract(Join(key, value));
    ExtractedIsToken(Join(key, value));
    ExtractedIsToken(rest);
    if NoSpace(key) && NoSpace(value) {
      ExtractWhole(value);
      if key == "" {
        assert Join(key, value) == " " + value;
        ExtractSkips(value);
        ExtractNothing();
      } else {
        assert Join(key, value) == key + (" " + value);
        ExtractToken(key, " " + value);
        ExtractSkips(value);
      }
    }
  }
}

/**
 * Raw sandbox output as bytes, and the two byte-level operations the handlers
 * apply to it: `out.split(b"\xff", 1)` and `out.replace(b"\xff", b"", 1)`.
 * The sandbox writes the tool's diagnostics, then a single 0xFF byte, then the
 * program output or the emitted artifact.
 */
module Bytes {

  newtype byte = b: int | 0 <= b < 256

  /** The separator between diagnostics and program/artifact output. */
  const Sentinel: byte := 0xFF

  /**
   * `s.split(b"\xff", 1)`: one part when `s` has no 0xFF byte, otherwise the
   * bytes before the first 0xFF and everything after it.
   */
  function SplitFirst(s: seq<byte>): (parts: seq<seq<byte>>)
    ensures |parts| == 1 || |parts| == 2
    ensures |parts| == 2 <==> Sentinel in s
    ensures Sentinel !in parts[0]
    ensures |parts| == 1 ==> parts[0] == s
    ensures |parts| == 2 ==> parts[0] + [Sentinel] + parts[1] == s
  {
    if s == [] then [[]]
    else if s[0] == Sentinel then [[], s[1..]]
    else
      var rest := SplitFirst(s[1..]);
      assert s == [s[0]] + s[1..];
      [[s[0]] + rest[0]] + rest[1..]
  }

  /** The split is the only way to cut `s` at a 0xFF byte with no 0xFF before the cut. */
  lemma SplitFirstUnique(s: seq<byte>, head: seq<byte>, tail: seq<byte>)
    requires Sentinel !in head
    requires s == head + [Sentinel] + tail
    ensures SplitFirst(s) == [head, tail]
  {
    var parts := SplitFirst(s);
    var p0, p1 := parts[0], parts[1];
    assert s[|p0|] == Sentinel && s[|head|] == Sentinel;
    assert |p0| == |head| by {
      assert forall k :: 0 <= k < |p0| ==> s[k] == p0[k] != Sentinel;
      assert forall k :: 0 <= k < |head| ==> s[k] == head[k] != Sentinel;
    }
    assert p0 == s[..|head|] == head;
    assert p1 == s[|head| + 1..] == tail;
  }

  /** `s.replace(b"\xff", b"", 1)`: drop the first 0xFF byte, keep every later one. */
  function RemoveFirst(s: seq<byte>): seq<byte>
  {
    if s == [] then []
    else if s[0] == Sentinel then s[1..]
    else [s[0]] + RemoveFirst(s[1..])
  }

  /** Removing the first 0xFF joins the two parts of the split; bytes after it, 0xFF included, are untouched. */
  lemma {:induction false} RemoveFirstJoinsSplit(s: seq<byte>)
    ensures Sentinel !in s ==> RemoveFirst(s) == SplitFirst(s)[0]
    ensures Sentinel in s ==> RemoveFirst(s) == SplitFirst(s)[0] + SplitFirst(s)[1]
  {
    if s == [] {
    } else if s[0] == Sentinel {
      assert SplitFirst(s) == [[], s[1..]];
      assert RemoveFirst(s) == s[1..];
      assert [] + s[1..] == s[1..];
    } else {
      var tail := s[1..];
      var rest := SplitFirst(tail);
      RemoveFirstJoinsSplit(tail);
      assert Sentinel in s <==> Sentinel in tail;
      assert SplitFirst(s)[0] == [s[0]] + rest[0];
      assert RemoveFirst(s) == [s[0]] + RemoveFirst(tail);
      if Sentinel in tail {
        assert SplitFirst(s)[1] == rest[1];
        assert [s[0]] + (rest[0] + rest[1]) == [s[0]] + rest[0] + rest[1];
      }
    }
  }

  /** The number of 0xFF bytes in a sequence. */
  function SentinelCount(s: seq<byte>): nat
  {
    multiset(s)[Sentinel]
  }

  /** Exactly one 0xFF byte is removed when there is one, and nothing else. */
  lemma RemoveFirstMultiset(s: seq<byte>)
    ensures multiset(RemoveFirst(s)) == multiset(s) - multiset{Sentinel}
  {
    RemoveFirstJoinsSplit(s);
    var parts := SplitFirst(s);
    if Sentinel in s {
      assert multiset(s) == multiset(parts[0]) + multiset{Sentinel} + multiset(parts[1]);
    } else {
      assert multiset(s)[Sentinel] == 0;
    }
  }

  /** One 0xFF fewer and one byte shorter when there is a 0xFF, unchanged otherwise. */
  lemma RemoveFirstCount(s: seq<byte>)
    ensures SentinelCount(RemoveFirst(s)) == if Sentinel in s then SentinelCount(s) - 1 else SentinelCount(s)
    ensures |RemoveFirst(s)| == if Sentinel in s then |s| - 1 else |s|
  {
    RemoveFirstMultiset(s);
    assert |multiset(RemoveFirst(s))| == |RemoveFirst(s)|;
    assert |multiset(s)| == |s|;
  }
}

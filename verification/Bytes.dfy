/** Byte strings, white-space trimming by Unicode rule, and splitting a stream at line feeds. */
module Bytes {

  newtype byte = x: int | 0 <= x < 256

  type bytes = seq<byte>

  const LF: byte := 10
  const CR: byte := 13
  const BRACE: byte := 123

  function HasPrefix(s: bytes, p: bytes): bool {
    |p| <= |s| && s[..|p|] == p
  }

  function HasSuffix(s: bytes, p: bytes): bool {
    |p| <= |s| && s[|s| - |p|..] == p
  }

  // ---------------------------------------------------------------- white space

  predicate IsSpace1(a: byte) {
    9 <= a <= 13 || a == 32
  }

  predicate IsSpace2(a: byte, b: byte) {
    a == 0xC2 && (b == 0x85 || b == 0xA0)
  }

  predicate IsSpace3(a: byte, b: byte, c: byte) {
    || (a == 0xE1 && b == 0x9A && c == 0x80)
    || (a == 0xE2 && b == 0x80 && (0x80 <= c <= 0x8A || c == 0xA8 || c == 0xA9 || c == 0xAF))
    || (a == 0xE2 && b == 0x81 && c == 0x9F)
    || (a == 0xE3 && b == 0x80 && c == 0x80)
  }

  /** The length of the white-space character a string starts with, or 0. */
  function LeadingSpace(s: bytes): (n: nat)
    ensures n <= |s|
  {
    if |s| >= 1 && IsSpace1(s[0]) then 1
    else if |s| >= 2 && IsSpace2(s[0], s[1]) then 2
    else if |s| >= 3 && IsSpace3(s[0], s[1], s[2]) then 3
    else 0
  }

  function TrailingSpace(s: bytes): (n: nat)
    ensures n <= |s|
  {
    var k := |s|;
    if k >= 1 && IsSpace1(s[k - 1]) then 1
    else if k >= 2 && IsSpace2(s[k - 2], s[k - 1]) then 2
    else if k >= 3 && IsSpace3(s[k - 3], s[k - 2], s[k - 1]) then 3
    else 0
  }

  function TrimLeft(s: bytes): bytes
    decreases |s|
  {
    if LeadingSpace(s) > 0 then TrimLeft(s[LeadingSpace(s)..]) else s
  }

  function TrimRight(s: bytes): bytes
    decreases |s|
  {
    if TrailingSpace(s) > 0 then TrimRight(s[..|s| - TrailingSpace(s)]) else s
  }

  function TrimSpace(s: bytes): bytes {
    TrimRight(TrimLeft(s))
  }

  /** Strips carriage returns and line feeds from the end. */
  function TrimLineEnd(s: bytes): bytes
    decreases |s|
  {
    if s != [] && (s[|s| - 1] == CR || s[|s| - 1] == LF) then TrimLineEnd(s[..|s| - 1]) else s
  }

  /** Only line ends go, and all of them. */
  lemma {:induction false} TrimLineEndIs(s: bytes)
    ensures var t := TrimLineEnd(s);
      && |t| <= |s| && t == s[..|t|] && (forall i :: |t| <= i < |s| ==> s[i] in {CR, LF})
      && (t != [] ==> t[|t| - 1] !in {CR, LF})
    decreases |s|
  {
    if s != [] && s[|s| - 1] in {CR, LF} {
      TrimLineEndIs(s[..|s| - 1]);
    }
  }

  // ---------------------------------------------------------------- lines

  /** The position of the first line feed, or -1. */
  function IndexLF(s: bytes): (i: int)
    ensures -1 <= i < |s|
    ensures i >= 0 ==> s[i] == LF
  {
    IndexFrom(s, 0)
  }

  function IndexFrom(s: bytes, from: nat): (i: int)
    requires from <= |s|
    ensures i == -1 || (from <= i < |s| && s[i] == LF)
    decreases |s| - from
  {
    if from == |s| then -1
    else if s[from] == LF then from
    else IndexFrom(s, from + 1)
  }

  /** The complete lines of a buffer, without their line feeds. */
  function Lines(s: bytes): seq<bytes>
    decreases |s|
  {
    var i := IndexLF(s);
    if i < 0 then [] else [s[..i]] + Lines(s[i + 1..])
  }

  /** What follows the last line feed. */
  function Rest(s: bytes): bytes
    decreases |s|
  {
    var i := IndexLF(s);
    if i < 0 then s else Rest(s[i + 1..])
  }

  lemma {:induction false} FoundIsFirst(s: bytes, from: nat)
    requires from <= |s|
    ensures forall k :: from <= k < (if IndexFrom(s, from) < 0 then |s| else IndexFrom(s, from)) ==> s[k] != LF
    decreases |s| - from
  {
    if from < |s| {
      FoundIsFirst(s, from + 1);
    }
  }

  lemma NoLFBefore(s: bytes)
    ensures forall k :: 0 <= k < (if IndexLF(s) < 0 then |s| else IndexLF(s)) ==> s[k] != LF
  {
    FoundIsFirst(s, 0);
  }

  lemma IndexLFIs(s: bytes, i: nat)
    requires i < |s| && s[i] == LF && forall k :: 0 <= k < i ==> s[k] != LF
    ensures IndexLF(s) == i
  {
    NoLFBefore(s);
  }

  lemma CutAtLF(a: bytes, b: bytes)
    requires IndexLF(a) >= 0
    ensures var i := IndexLF(a);
      IndexLF(a + b) == i && (a + b)[..i] == a[..i] && (a + b)[i + 1..] == a[i + 1..] + b
  {
    NoLFBefore(a);
    IndexLFIs(a + b, IndexLF(a));
  }

  lemma {:induction false} RestResumes(a: bytes, b: bytes)
    ensures Rest(a + b) == Rest(Rest(a) + b)
    decreases |a|
  {
    if IndexLF(a) >= 0 {
      CutAtLF(a, b);
      RestResumes(a[IndexLF(a) + 1..], b);
    }
  }

  lemma LinesStep(s: bytes, i: int, head: bytes, tail: bytes)
    requires IndexLF(s) == i >= 0 && head == s[..i] && tail == s[i + 1..]
    ensures Lines(s) == [head] + Lines(tail) && Rest(s) == Rest(tail)
  {
  }

  lemma PrependConcat(head: bytes, x: seq<bytes>, y: seq<bytes>)
    ensures [head] + (x + y) == ([head] + x) + y
  {
  }

  lemma {:induction false} LinesResume(a: bytes, b: bytes)
    ensures Lines(a + b) == Lines(a) + Lines(Rest(a) + b)
    decreases |a|
  {
    var i := IndexLF(a);
    if i < 0 {
      assert [] + Lines(a + b) == Lines(a + b);
    } else {
      var head, tail := a[..i], a[i + 1..];
      CutAtLF(a, b);
      LinesStep(a, i, head, tail);
      LinesStep(a + b, i, head, tail + b);
      LinesResume(tail, b);
      PrependConcat(head, Lines(tail), Lines(Rest(tail) + b));
    }
  }

  /** Splitting can be resumed: reading `a` and later `b` yields the lines of `a + b`, whatever
      the place of the cut. */
  lemma SplitResumes(a: bytes, b: bytes)
    ensures Lines(a + b) == Lines(a) + Lines(Rest(a) + b)
    ensures Rest(a + b) == Rest(Rest(a) + b)
  {
    RestResumes(a, b);
    LinesResume(a, b);
  }

  /** Splitting loses nothing: the lines, each ended by a line feed, and the rest are the input. */
  function Joined(lines: seq<bytes>): bytes {
    if lines == [] then [] else lines[0] + [LF] + Joined(lines[1..])
  }

  lemma JoinedHead(line: bytes, lines: seq<bytes>)
    ensures Joined([line] + lines) == line + [LF] + Joined(lines)
  {
    assert ([line] + lines)[1..] == lines;
  }

  lemma Regroup(s: bytes, i: nat, x: bytes, y: bytes)
    requires i < |s| && s[i] == LF && x + y == s[i + 1..]
    ensures (s[..i] + [LF] + x) + y == s
  {
    assert s == s[..i] + [LF] + s[i + 1..];
  }

  lemma {:induction false} SplitLosesNothing(s: bytes)
    ensures Joined(Lines(s)) + Rest(s) == s
    decreases |s|
  {
    var i := IndexLF(s);
    if i >= 0 {
      SplitLosesNothing(s[i + 1..]);
      JoinedHead(s[..i], Lines(s[i + 1..]));
      Regroup(s, i, Joined(Lines(s[i + 1..])), Rest(s[i + 1..]));
    }
  }

  lemma {:induction false} RestHasNoLF(s: bytes)
    ensures IndexLF(Rest(s)) == -1
    decreases |s|
  {
    if IndexLF(s) >= 0 {
      RestHasNoLF(s[IndexLF(s) + 1..]);
    }
  }

  function Concat(parts: seq<bytes>): bytes {
    if parts == [] then [] else Concat(parts[..|parts| - 1]) + parts[|parts| - 1]
  }
}

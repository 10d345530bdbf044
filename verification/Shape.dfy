/** What the rewritten stream looks like as a whole, and which lines pass unchanged. */
module Shape {
  import opened Bytes
  import opened Json
  import opened Usage
  import opened Stream
  import Seqs

  // ---------------------------------------------------------------- the output in closed form

  /** A line that is no DONE, rewritten, with its own ending. */
  function Forwarded(f: LineRule, raw: bytes): bytes {
    if f(Text(raw)).hold then [] else f(Text(raw)).text + Ending(raw)
  }

  predicate ShowsUsage(f: LineRule, raw: bytes) {
    !f(Text(raw)).hold && f(Text(raw)).usage
  }

  /** The forwarded lines in order. */
  function Body(f: LineRule, lines: seq<bytes>): bytes
    decreases |lines|
  {
    if lines == [] then [] else Body(f, lines[..|lines| - 1]) + Forwarded(f, lines[|lines| - 1])
  }

  /** The last DONE line with its own ending, or nothing. */
  function LastDone(f: LineRule, lines: seq<bytes>): bytes
    decreases |lines|
  {
    if lines == [] then []
    else
      var raw := lines[|lines| - 1];
      if f(Text(raw)).hold then Text(raw) + Ending(raw) else LastDone(f, lines[..|lines| - 1])
  }

  predicate AnyUsage(f: LineRule, lines: seq<bytes>)
    decreases |lines|
  {
    lines != [] && (AnyUsage(f, lines[..|lines| - 1]) || ShowsUsage(f, lines[|lines| - 1]))
  }

  lemma {:induction false} AnyUsageIsSomeLine(f: LineRule, lines: seq<bytes>)
    ensures AnyUsage(f, lines) <==> exists raw :: raw in lines && ShowsUsage(f, raw)
    decreases |lines|
  {
    if lines != [] {
      var front, last := lines[..|lines| - 1], lines[|lines| - 1];
      assert lines == front + [last];
      AnyUsageIsSomeLine(f, front);
    }
  }

  lemma BodySnoc(f: LineRule, lines: seq<bytes>, raw: bytes)
    ensures Body(f, lines + [raw]) == Body(f, lines) + Forwarded(f, raw)
  {
    Seqs.FrontOfSnoc(lines, raw);
  }

  lemma LastDoneSnoc(f: LineRule, lines: seq<bytes>, raw: bytes)
    ensures LastDone(f, lines + [raw]) == if f(Text(raw)).hold then Text(raw) + Ending(raw) else LastDone(f, lines)
  {
    Seqs.FrontOfSnoc(lines, raw);
  }

  lemma AnyUsageSnoc(f: LineRule, lines: seq<bytes>, raw: bytes)
    ensures AnyUsage(f, lines + [raw]) <==> AnyUsage(f, lines) || ShowsUsage(f, raw)
  {
    Seqs.FrontOfSnoc(lines, raw);
  }

  lemma TakeLineShape(f: LineRule, m: Memory, raw: bytes)
    ensures TakeLine(f, m, raw)
      == (Memory(if f(Text(raw)).hold then Text(raw) + Ending(raw) else m.held, m.sawUsage || ShowsUsage(f, raw)),
          Forwarded(f, raw))
  {
  }

  /** What the three parts say of lines taken from the start. */
  ghost predicate Shaped(f: LineRule, lines: seq<bytes>) {
    TakeLines(f, BLANK, lines) == (Memory(LastDone(f, lines), AnyUsage(f, lines)), Body(f, lines))
  }

  lemma ShapedSnoc(f: LineRule, lines: seq<bytes>, raw: bytes)
    requires Shaped(f, lines)
    ensures Shaped(f, lines + [raw])
  {
    TakeLinesSnoc(f, BLANK, lines, raw);
    TakeLineShape(f, Memory(LastDone(f, lines), AnyUsage(f, lines)), raw);
    BodySnoc(f, lines, raw);
    LastDoneSnoc(f, lines, raw);
    AnyUsageSnoc(f, lines, raw);
  }

  lemma {:induction false} ShapedPrefix(f: LineRule, lines: seq<bytes>, k: nat)
    requires k <= |lines|
    ensures Shaped(f, lines[..k])
    decreases k
  {
    if k > 0 {
      ShapedPrefix(f, lines, k - 1);
      ShapedSnoc(f, lines[..k - 1], lines[k - 1]);
      Seqs.PrefixSnoc(lines, k);
    }
  }

  lemma TakeLinesShape(f: LineRule, lines: seq<bytes>)
    ensures TakeLines(f, BLANK, lines) == (Memory(LastDone(f, lines), AnyUsage(f, lines)), Body(f, lines))
  {
    ShapedPrefix(f, lines, |lines|);
    assert lines[..|lines|] == lines;
  }

  lemma ClosingOfCompleteLines(e: Env, m: Memory, u: TokenUsage)
    ensures Closing(e, m, [], u) == [] + OwedFrame(e, m.sawUsage, u) + m.held
  {
  }

  lemma Glue(a: bytes, b: bytes, c: bytes)
    ensures a + ([] + b + c) == a + b + c
  {
  }

  /** A stream of complete lines becomes its rewritten lines in order, then one usage frame
      exactly when usage was recorded and no forwarded line carried it, then the last DONE. */
  lemma StreamShape(e: Env, stream: bytes, u: TokenUsage)
    requires Rest(stream) == []
    ensures var f, lines := Rule(e), Lines(stream);
      ClientBytes(e, stream, u) == Body(f, lines)
        + (if AnyUsage(f, lines) || u.Empty() then [] else UsageFrame(e, u)) + LastDone(f, lines)
  {
    var f, lines := Rule(e), Lines(stream);
    TakeLinesShape(f, lines);
    ClosingOfCompleteLines(e, Memory(LastDone(f, lines), AnyUsage(f, lines)), u);
    Glue(Body(f, lines), OwedFrame(e, AnyUsage(f, lines), u), LastDone(f, lines));
  }

  // ---------------------------------------------------------------- what is left alone

  lemma {:induction false} TrimLeftDone(s: bytes)
    ensures LeadingSpace(TrimLeft(s)) == 0
    decreases |s|
  {
    if LeadingSpace(s) > 0 {
      TrimLeftDone(s[LeadingSpace(s)..]);
    }
  }

  lemma {:induction false} TrimRightDone(s: bytes)
    ensures TrailingSpace(TrimRight(s)) == 0
    ensures TrimRight(s) <= s
    ensures LeadingSpace(s) == 0 ==> LeadingSpace(TrimRight(s)) == 0
    decreases |s|
  {
    if TrailingSpace(s) > 0 {
      TrimRightDone(s[..|s| - TrailingSpace(s)]);
    }
  }

  /** Trimming twice is trimming once. */
  lemma TrimIsStable(s: bytes)
    ensures TrimSpace(TrimSpace(s)) == TrimSpace(s)
  {
    TrimLeftDone(s);
    TrimRightDone(TrimLeft(s));
  }

  /** The data member is a completion and the object around it an envelope. */
  predicate WrapsCompletion(e: Env, m: map<string, bytes>)
    requires "data" in m
  {
    var data := TrimSpace(m["data"]);
    && data != [] && data[0] == BRACE && CompletionLike(e, data)
    && ("success" in m || ("object" !in m && "choices" !in m))
  }

  /** The data member has usage that the top lacks. */
  predicate HidesUsage(e: Env, p: bytes, m: map<string, bytes>)
    requires "data" in m
  {
    && !HasTopLevelUsage(e, p)
    && match e.codec.members(m["data"])
       case None => false
       case Some(inner) =>
         "usage" in inner && TrimSpace(inner["usage"]) != [] && TrimSpace(inner["usage"])[0] == BRACE
  }

  /** Under the keep policy a trimmed payload is already normal when it is no envelope around a
      completion and hides no usage in a data member. */
  lemma NormalPayload(e: Env, p: bytes)
    requires e.policy == Keep && TrimSpace(p) == p
    requires match e.codec.members(p)
      case None => true
      case Some(m) => "data" in m ==> !WrapsCompletion(e, m) && !HidesUsage(e, p, m)
    ensures Normalize(e, p) == p
  {
    assert UnwrapOnce(e, p) == p;
    assert LiftUsage(e, p) == p;
  }

  ghost predicate Unchanged(f: LineRule, raw: bytes) {
    !f(Text(raw)).hold && f(Text(raw)).text == Text(raw)
  }

  /** A `data:` line whose payload is already normal comes out byte for byte, whatever spacing it
      uses, under every policy. */
  lemma NormalDataLineUnchanged(e: Env, line: bytes)
    requires HasPrefix(TrimSpace(line), DATA)
    requires var p := TrimSpace(TrimSpace(line)[|DATA|..]); Normalize(e, p) == p
    ensures RewriteLine(e, line).hold || RewriteLine(e, line).text == line
  {
    TrimIsStable(TrimSpace(line)[|DATA|..]);
  }

  ghost predicate Kept(f: LineRule, lines: seq<bytes>) {
    Body(f, lines) == Joined(lines) && LastDone(f, lines) == []
  }

  lemma KeptSnoc(f: LineRule, lines: seq<bytes>, raw: bytes)
    requires Kept(f, lines) && Unchanged(f, raw)
    ensures Kept(f, lines + [raw])
  {
    BodySnoc(f, lines, raw);
    LastDoneSnoc(f, lines, raw);
    JoinedSnoc(lines, raw);
    assert Text(raw) + Ending(raw) == raw + [LF];
  }

  lemma {:induction false} KeptPrefix(f: LineRule, lines: seq<bytes>, k: nat)
    requires k <= |lines| && forall i :: 0 <= i < |lines| ==> Unchanged(f, lines[i])
    ensures Kept(f, lines[..k])
    decreases k
  {
    if k > 0 {
      KeptPrefix(f, lines, k - 1);
      KeptSnoc(f, lines[..k - 1], lines[k - 1]);
      Seqs.PrefixSnoc(lines, k);
    }
  }

  lemma BodyUnchanged(f: LineRule, lines: seq<bytes>)
    requires forall i :: 0 <= i < |lines| ==> Unchanged(f, lines[i])
    ensures Body(f, lines) == Joined(lines) && LastDone(f, lines) == []
  {
    KeptPrefix(f, lines, |lines|);
    assert lines[..|lines|] == lines;
  }

  lemma JoinedSnoc(lines: seq<bytes>, line: bytes)
    ensures Joined(lines + [line]) == Joined(lines) + (line + [LF])
  {
    if lines == [] {
      assert lines + [line] == [line];
    } else {
      assert (lines + [line])[0] == lines[0] && (lines + [line])[1..] == lines[1..] + [line];
      JoinedSnoc(lines[1..], line);
      Seqs.Assoc(lines[0] + [LF], Joined(lines[1..]), line + [LF]);
    }
  }

  lemma DoneAfterBody(f: LineRule, body: seq<bytes>, done: bytes)
    requires f(Text(done)).hold
    ensures Body(f, body + [done]) == Body(f, body)
    ensures LastDone(f, body + [done]) == Text(done) + Ending(done) == done + [LF]
  {
  }

  lemma BodyUnchangedThenDone(f: LineRule, body: seq<bytes>, done: bytes)
    requires forall i :: 0 <= i < |body| ==> Unchanged(f, body[i])
    requires f(Text(done)).hold
    ensures Body(f, body + [done]) + [] + LastDone(f, body + [done]) == Joined(body + [done])
  {
    BodyUnchanged(f, body);
    DoneAfterBody(f, body, done);
    JoinedSnoc(body, done);
    assert Body(f, body) + [] == Body(f, body);
  }

  lemma PassthroughLines(f: LineRule, body: seq<bytes>, done: seq<bytes>)
    requires forall i :: 0 <= i < |body| ==> Unchanged(f, body[i])
    requires |done| <= 1 && (done != [] ==> f(Text(done[0])).hold)
    ensures Body(f, body + done) + [] + LastDone(f, body + done) == Joined(body + done)
    ensures done == [] ==> LastDone(f, body + done) == []
  {
    if done == [] {
      assert body + done == body;
      BodyUnchanged(f, body);
    } else {
      assert done == [done[0]];
      BodyUnchangedThenDone(f, body, done[0]);
    }
  }
}

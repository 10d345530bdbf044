/** The copy loop of a streamed answer: every read goes to the usage parser and to the
    rewriter, and the end of the stream closes both. The theorems say that neither the bytes
    the client receives nor the usage on record depend on how the network cut the stream. */
module Relay {
  import opened Bytes
  import opened Json
  import opened Usage
  import opened Stream

  /** The parser after a sequence of reads; empty reads are skipped by the loop. */
  function ParseAll(c: Codec, chunks: seq<bytes>): Parse {
    if chunks == [] then Parse(NO_USAGE, [])
    else
      var p, last := ParseAll(c, chunks[..|chunks| - 1]), chunks[|chunks| - 1];
      if last == [] then p else Written(c, p, last)
  }

  function ResultOf(c: Codec, p: Parse): TokenUsage {
    MergeLine(c, p.usage, p.rest).WithTotal()
  }

  /** The rewriter after a sequence of reads, and the bytes sent so far. */
  datatype Feed = Feed(memory: Memory, pending: bytes, sent: bytes)

  function Fed(f: LineRule, s: Feed, chunk: bytes): Feed {
    var (m, out) := TakeLines(f, s.memory, Lines(s.pending + chunk));
    Feed(m, Rest(s.pending + chunk), s.sent + out)
  }

  function FeedAll(f: LineRule, chunks: seq<bytes>): Feed {
    if chunks == [] then Feed(BLANK, [], [])
    else
      var s, last := FeedAll(f, chunks[..|chunks| - 1]), chunks[|chunks| - 1];
      if last == [] then s else Fed(f, s, last)
  }

  /** What the client receives and what is recorded, read by read. */
  function Copied(e: Env, chunks: seq<bytes>): (bytes, TokenUsage) {
    var u, s := ResultOf(e.codec, ParseAll(e.codec, chunks)), FeedAll(Rule(e), chunks);
    (s.sent + Closing(e, s.memory, s.pending, u), u)
  }

  method CopyStream(e: Env, chunks: seq<bytes>) returns (client: bytes, usage: TokenUsage)
    ensures (client, usage) == Copied(e, chunks)
  {
    var parser := new Parser(e.codec);
    var rewriter := new Rewriter(e);
    client := [];
    ghost var f := Rule(e);
    for i := 0 to |chunks|
      invariant parser.codec == e.codec && rewriter.env == e
      invariant parser.View() == ParseAll(e.codec, chunks[..i])
      invariant Feed(rewriter.View(), rewriter.pending, client) == FeedAll(f, chunks[..i])
    {
      assert chunks[..i + 1][..i] == chunks[..i];
      if |chunks[i]| > 0 {
        parser.Write(chunks[i]);
        var out := rewriter.Transform(chunks[i]);
        client := client + out;
      }
    }
    assert chunks[..|chunks|] == chunks;
    var u := parser.Result();
    var rest := rewriter.Finish(u);
    client := client + rest;
    ghost var p := ParseAll(e.codec, chunks);
    ResultIsStable(e.codec, p.usage, p.rest);
    usage := parser.Result();
  }

  // ---------------------------------------------------------------- the rewriter

  /** Feeding `a` and then `b` leaves the rewriter in the same state, and sends the same bytes,
      as feeding `a + b` at once. */
  lemma FeedResumes(f: LineRule, m: Memory, a: bytes, b: bytes)
    ensures var (m1, o1) := TakeLines(f, m, Lines(a));
      var (m2, o2) := TakeLines(f, m1, Lines(Rest(a) + b));
      TakeLines(f, m, Lines(a + b)) == (m2, o1 + o2) && Rest(a + b) == Rest(Rest(a) + b)
  {
    SplitResumes(a, b);
    TakeLinesConcat(f, m, Lines(a), Lines(Rest(a) + b));
  }

  /** The rewriter after the whole stream at once. */
  function FedAtOnce(f: LineRule, stream: bytes): Feed {
    var (m, out) := TakeLines(f, BLANK, Lines(stream));
    Feed(m, Rest(stream), out)
  }

  lemma FedAgain(f: LineRule, a: bytes, b: bytes)
    ensures Fed(f, FedAtOnce(f, a), b) == FedAtOnce(f, a + b)
  {
    FeedResumes(f, BLANK, a, b);
  }

  lemma {:induction false} FedWhole(f: LineRule, chunks: seq<bytes>)
    ensures FeedAll(f, chunks) == FedAtOnce(f, Concat(chunks))
    decreases |chunks|
  {
    if chunks != [] {
      var before, last := chunks[..|chunks| - 1], chunks[|chunks| - 1];
      FedWhole(f, before);
      FedAgain(f, Concat(before), last);
      assert last == [] ==> Concat(before) + last == Concat(before);
    }
  }

  /** Whatever the cuts, the client receives the rewriting of the whole stream, closed with the
      usage on record. */
  lemma ClientSeesWhole(e: Env, chunks: seq<bytes>)
    ensures Copied(e, chunks).0 == ClientBytes(e, Concat(chunks), Copied(e, chunks).1)
  {
    FedWhole(Rule(e), chunks);
  }

  // ---------------------------------------------------------------- the parser and its cap

  /** No write is dropped: each non-empty read finds a partial line within the cap. */
  ghost predicate Lands(chunks: seq<bytes>) {
    forall i :: 0 <= i < |chunks| && chunks[i] != [] ==> |Rest(Concat(chunks[..i]))| <= MAX_PARTIAL
  }

  /** No line, counted up to any byte that still has a successor, is longer than the cap. */
  ghost predicate ShortLines(stream: bytes) {
    forall n :: 0 <= n < |stream| ==> |Rest(stream[..n])| <= 4 * 1024 * 1024
  }

  lemma {:induction false} ParsedWhole(c: Codec, chunks: seq<bytes>)
    requires Lands(chunks)
    ensures ParseAll(c, chunks) == Parse(MergeLines(c, NO_USAGE, Lines(Concat(chunks))), Rest(Concat(chunks)))
    decreases |chunks|
  {
    if chunks != [] {
      var k := |chunks| - 1;
      var before, last := chunks[..k], chunks[k];
      forall i | 0 <= i < k && before[i] != [] ensures |Rest(Concat(before[..i]))| <= MAX_PARTIAL {
        assert before[..i] == chunks[..i];
      }
      ParsedWhole(c, before);
      if last == [] {
        assert Concat(before) + last == Concat(before);
      } else {
        SplitResumes(Concat(before), last);
        MergeLinesConcat(c, NO_USAGE, Lines(Concat(before)), Lines(Rest(Concat(before)) + last));
      }
    }
  }

  lemma {:induction false} ConcatPrefix(chunks: seq<bytes>, i: nat)
    requires i <= |chunks|
    ensures |Concat(chunks[..i])| <= |Concat(chunks)|
    ensures Concat(chunks)[..|Concat(chunks[..i])|] == Concat(chunks[..i])
    ensures i < |chunks| && chunks[i] != [] ==> |Concat(chunks[..i])| < |Concat(chunks)|
    decreases |chunks|
  {
    if i == |chunks| {
      assert chunks[..i] == chunks;
    } else {
      var before := chunks[..|chunks| - 1];
      assert before[..i] == chunks[..i];
      ConcatPrefix(before, i);
    }
  }

  /** Short lines are exactly the condition under which no way of cutting the stream makes the
      parser drop anything. */
  lemma LandsHoweverCut(stream: bytes)
    ensures ShortLines(stream) <==> forall chunks :: Concat(chunks) == stream ==> Lands(chunks)
  {
    if ShortLines(stream) {
      forall chunks | Concat(chunks) == stream ensures Lands(chunks) {
        forall i | 0 <= i < |chunks| && chunks[i] != [] ensures |Rest(Concat(chunks[..i]))| <= MAX_PARTIAL {
          ConcatPrefix(chunks, i);
        }
      }
    }
    if forall chunks :: Concat(chunks) == stream ==> Lands(chunks) {
      forall n | 0 <= n < |stream| ensures |Rest(stream[..n])| <= MAX_PARTIAL {
        var chunks := [stream[..n], stream[n..]];
        assert chunks[..1] == [stream[..n]];
        assert Concat(chunks[..1]) == Concat([]) + stream[..n] == stream[..n];
        assert Concat(chunks) == stream[..n] + stream[n..] == stream;
        assert Lands(chunks);
      }
    }
  }

  // ---------------------------------------------------------------- main results

  lemma CopiedWhole(e: Env, chunks: seq<bytes>)
    requires ShortLines(Concat(chunks))
    ensures var u := RecordedUsage(e.codec, Concat(chunks));
      Copied(e, chunks) == (ClientBytes(e, Concat(chunks), u), u)
  {
    LandsHoweverCut(Concat(chunks));
    ParsedWhole(e.codec, chunks);
    ClientSeesWhole(e, chunks);
  }

  /** Two ways of cutting the same stream with short lines give the client the same bytes and
      put the same usage on record. */
  lemma CutsDoNotMatter(e: Env, a: seq<bytes>, b: seq<bytes>)
    requires Concat(a) == Concat(b) && ShortLines(Concat(a))
    ensures Copied(e, a) == Copied(e, b)
  {
    CopiedWhole(e, a);
    CopiedWhole(e, b);
  }

  lemma TwoLines(a: bytes, b: bytes)
    requires IndexLF(a) == -1 && IndexLF(b) == -1
    ensures Lines(a + ([LF] + b + [LF])) == [a, b] && Rest(a + ([LF] + b + [LF])) == []
    ensures Lines(a) == [] && Rest(a) == a
  {
    var s := a + ([LF] + b + [LF]);
    NoLFBefore(a);
    NoLFBefore(b);
    IndexLFIs(s, |a|);
    assert s[..|a|] == a && s[|a| + 1..] == b + [LF];
    IndexLFIs(b + [LF], |b|);
    assert (b + [LF])[..|b|] == b && (b + [LF])[|b| + 1..] == [];
    assert Lines(b + [LF]) == [b] + [];
    assert Rest(b + [LF]) == Rest([]) == [] && Rest(s) == Rest(b + [LF]);
  }

  lemma UnterminatedParse(c: Codec, chunks: seq<bytes>)
    requires IndexLF(Concat(chunks)) == -1 && |Concat(chunks)| <= MAX_PARTIAL
    ensures ParseAll(c, chunks) == Parse(NO_USAGE, Concat(chunks))
  {
    forall i | 0 <= i < |chunks| ensures |Rest(Concat(chunks[..i]))| <= MAX_PARTIAL {
      ConcatPrefix(chunks, i);
      RestIsShort(Concat(chunks[..i]));
    }
    ParsedWhole(c, chunks);
  }

  lemma {:induction false} RestIsShort(s: bytes)
    ensures |Rest(s)| <= |s|
    decreases |s|
  {
    if IndexLF(s) >= 0 {
      RestIsShort(s[IndexLF(s) + 1..]);
    }
  }

  lemma ParseSnoc(c: Codec, chunks: seq<bytes>, last: bytes)
    requires last != []
    ensures ParseAll(c, chunks + [last]) == Written(c, ParseAll(c, chunks), last)
  {
    assert (chunks + [last])[..|chunks|] == chunks;
  }

  lemma CutAfterLongLine(c: Codec, chunks: seq<bytes>, more: bytes, tail: bytes)
    requires |Concat(chunks)| <= MAX_PARTIAL < |Concat(chunks) + more| && IndexLF(Concat(chunks) + more) == -1
    requires IndexLF(Concat(chunks)) == -1 && tail != []
    ensures ParseAll(c, chunks + [more] + [tail]) == Parse(NO_USAGE, Concat(chunks) + more)
  {
    UnterminatedParse(c, chunks);
    ParseSnoc(c, chunks, more);
    ParseSnoc(c, chunks + [more], tail);
    assert Lines(Concat(chunks) + more) == [];
  }

  lemma CutInsideLongLine(c: Codec, chunks: seq<bytes>, more: bytes, report: bytes)
    requires |Concat(chunks)| <= MAX_PARTIAL && IndexLF(Concat(chunks)) == -1
    requires IndexLF(Concat(chunks) + more) == -1 && IndexLF(report) == -1
    ensures ParseAll(c, chunks + [more + ([LF] + report + [LF])])
         == Parse(MergeLine(c, MergeLine(c, NO_USAGE, Concat(chunks) + more), report), [])
  {
    var a, tail := Concat(chunks), [LF] + report + [LF];
    UnterminatedParse(c, chunks);
    ParseSnoc(c, chunks, more + tail);
    TwoLines(a + more, report);
    assert a + (more + tail) == (a + more) + tail;
    var u := MergeLine(c, NO_USAGE, a + more);
    assert [a + more, report][1..] == [report] && [report][1..] == [];
    assert MergeLines(c, u, [report]) == MergeLines(c, MergeLine(c, u, report), []);
  }

  lemma PrefixHasNoLF(a: bytes, b: bytes)
    ensures IndexLF(a) >= 0 ==> IndexLF(a + b) == IndexLF(a)
  {
    if IndexLF(a) >= 0 {
      CutAtLF(a, b);
    }
  }

  lemma EmptyLine(c: Codec, u: TokenUsage)
    ensures MergeLine(c, u, []) == u
  {
    assert TrimSpace([]) == [];
  }

  /** Past the cap the cut does matter: a line longer than the cap, followed by a line that
      reports usage, loses that usage when the stream is cut after the long line and keeps it
      when the last read runs across. */
  lemma LongLineCanLoseUsage(c: Codec, chunks: seq<bytes>, more: bytes, report: bytes)
    requires |Concat(chunks)| <= MAX_PARTIAL < |Concat(chunks) + more| && IndexLF(Concat(chunks) + more) == -1
    requires LineUsage(c, TrimSpace(Concat(chunks) + more)).None?
    requires IndexLF(report) == -1 && LineUsage(c, TrimSpace(report)).Some?
    ensures var tail := [LF] + report + [LF];
      && ResultOf(c, ParseAll(c, chunks + [more] + [tail])) == NO_USAGE
      && ResultOf(c, ParseAll(c, chunks + [more + tail]))
         == Merge(NO_USAGE, LineUsage(c, TrimSpace(report)).value).WithTotal()
  {
    PrefixHasNoLF(Concat(chunks), more);
    CutAfterLongLine(c, chunks, more, [LF] + report + [LF]);
    CutInsideLongLine(c, chunks, more, report);
    EmptyLine(c, MergeLine(c, NO_USAGE, report));
  }
}

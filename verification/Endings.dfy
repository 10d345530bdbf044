/** What becomes of an unterminated last line. */
module Endings {
  import opened Bytes
  import opened Usage
  import opened Stream
  import opened Shape
  import Meaning
  import Seqs

  /** The usage frame: whenever usage was recorded that no line showed. */
  function FrameUnless(e: Env, shown: bool, u: TokenUsage): bytes {
    if shown || u.Empty() then [] else UsageFrame(e, u)
  }

  predicate BareObject(rest: bytes) {
    TrimSpace(rest) != [] && TrimSpace(rest)[0] == BRACE
  }

  predicate MarkerLine(rest: bytes) {
    !BareObject(rest) && Meaning.Marker(TrimSpace(TrimLineEnd(rest)), 2)
  }

  predicate OtherLine(rest: bytes) {
    rest != [] && !BareObject(rest) && !MarkerLine(rest)
  }

  lemma Glued(a: bytes, tail: bytes, frame: bytes, held: bytes)
    ensures a + (tail + frame + held) == a + tail + frame + held
  {
  }

  lemma GluedMarker(a: bytes, frame: bytes, held: bytes, more: bytes)
    ensures a + ([] + frame + (held + more)) == a + frame + held + more
  {
  }

  /** An unterminated bare object ends normalised, followed by the frame and the last DONE. */
  lemma ObjectEnds(e: Env, stream: bytes, u: TokenUsage)
    requires BareObject(Rest(stream))
    ensures var f, lines, n := Rule(e), Lines(stream), Normalize(e, Rest(stream));
      ClientBytes(e, stream, u) == Body(f, lines) + n
        + FrameUnless(e, AnyUsage(f, lines) || HasTopLevelUsage(e, n), u) + LastDone(f, lines)
  {
    var f, lines, n := Rule(e), Lines(stream), Normalize(e, Rest(stream));
    NotBlank(Rest(stream));
    TakeLinesShape(f, lines);
    Glued(Body(f, lines), n, FrameUnless(e, AnyUsage(f, lines) || HasTopLevelUsage(e, n), u), LastDone(f, lines));
  }

  lemma NotBlank(rest: bytes)
    requires BareObject(rest)
    ensures rest != []
  {
  }

  /** An unterminated DONE adds nothing to the lines forwarded; it is appended, without its line
      end, to the last DONE before it, and the frame comes first. */
  lemma MarkerEnds(e: Env, stream: bytes, u: TokenUsage)
    requires MarkerLine(Rest(stream))
    ensures var f, lines := Rule(e), Lines(stream);
      ClientBytes(e, stream, u) == Body(f, lines)
        + FrameUnless(e, AnyUsage(f, lines), u) + LastDone(f, lines) + TrimLineEnd(Rest(stream))
  {
    var f, lines, rest := Rule(e), Lines(stream), Rest(stream);
    Meaning.HeldExactlyDone(e, TrimLineEnd(rest));
    NothingIsNoMarker();
    TakeLinesShape(f, lines);
    GluedMarker(Body(f, lines), FrameUnless(e, AnyUsage(f, lines), u), LastDone(f, lines), TrimLineEnd(rest));
  }

  lemma NothingIsNoMarker()
    ensures !MarkerLine([])
  {
  }

  /** Any other unterminated line ends rewritten, without its line end, and the frame follows on
      the same line. */
  lemma LineEnds(e: Env, stream: bytes, u: TokenUsage)
    requires OtherLine(Rest(stream))
    ensures var f, lines, last := Rule(e), Lines(stream), RewriteLine(e, TrimLineEnd(Rest(stream)));
      ClientBytes(e, stream, u) == Body(f, lines) + last.text
        + FrameUnless(e, AnyUsage(f, lines) || last.usage, u) + LastDone(f, lines)
  {
    var f, lines, rest := Rule(e), Lines(stream), Rest(stream);
    var last := RewriteLine(e, TrimLineEnd(rest));
    Meaning.HeldExactlyDone(e, TrimLineEnd(rest));
    TakeLinesShape(f, lines);
    Glued(Body(f, lines), last.text, FrameUnless(e, AnyUsage(f, lines) || last.usage, u), LastDone(f, lines));
  }

  // ---------------------------------------------------------------- what is left alone

  /** The last line carries usage at its top level. */
  predicate LastShows(e: Env, rest: bytes) {
    if BareObject(rest) then HasTopLevelUsage(e, Normalize(e, rest))
    else OtherLine(rest) && RewriteLine(e, TrimLineEnd(rest)).usage
  }

  /** The last line is one that rewriting does not change. */
  predicate LastUnchanged(e: Env, rest: bytes) {
    if BareObject(rest) then Normalize(e, rest) == rest
    else if MarkerLine(rest) then TrimLineEnd(rest) == rest
    else OtherLine(rest) ==> RewriteLine(e, TrimLineEnd(rest)).text == rest
  }

  /** A stream of unchanged lines passes through byte for byte, whether its last line is terminated
      or not, unless usage was recorded that no line shows. A DONE may come last, and be followed
      by nothing but an unterminated DONE. */
  lemma Passthrough(e: Env, stream: bytes, body: seq<bytes>, done: seq<bytes>, u: TokenUsage)
    requires Lines(stream) == body + done && LastUnchanged(e, Rest(stream))
    requires forall i :: 0 <= i < |body| ==> Unchanged(Rule(e), body[i])
    requires |done| <= 1 && (done != [] ==> Rule(e)(Text(done[0])).hold)
    requires done != [] ==> Rest(stream) == [] || MarkerLine(Rest(stream))
    requires AnyUsage(Rule(e), body + done) || LastShows(e, Rest(stream)) || u.Empty()
    ensures ClientBytes(e, stream, u) == stream
  {
    var f, lines, rest := Rule(e), Lines(stream), Rest(stream);
    SplitLosesNothing(stream);
    PassthroughLines(f, body, done);
    if rest == [] {
      StreamShape(e, stream, u);
      assert Joined(lines) + [] == Joined(lines);
    } else if BareObject(rest) {
      ObjectEnds(e, stream, u);
      LinesThen(f, lines, rest);
    } else if MarkerLine(rest) {
      MarkerEnds(e, stream, u);
    } else {
      LineEnds(e, stream, u);
      LinesThen(f, lines, rest);
    }
  }

  lemma LinesThen(f: LineRule, lines: seq<bytes>, rest: bytes)
    requires LastDone(f, lines) == []
    ensures Body(f, lines) + rest + [] + LastDone(f, lines) == Body(f, lines) + [] + LastDone(f, lines) + rest
  {
  }
}

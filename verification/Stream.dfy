/** The streaming rewriter: upstream bytes arrive in arbitrary pieces, each line is rewritten
    and sent on, DONE markers are held back, and a usage frame is added at the end. */
module Stream {
  import opened Bytes
  import opened Json
  import opened Usage
  import Seqs

  datatype Policy = Keep | Hide | Replace(provider: string)

  datatype Env = Env(codec: Codec, policy: Policy)

  // ---------------------------------------------------------------- one JSON payload

  predicate CompletionLike(e: Env, raw: bytes) {
    match e.codec.members(raw)
    case None => false
    case Some(m) => "object" in m || "choices" in m || "usage" in m || "delta" in m
  }

  function UnwrapOnce(e: Env, raw: bytes): bytes {
    var t := TrimSpace(raw);
    if t == [] || t[0] != BRACE then t
    else match e.codec.members(t)
      case None => t
      case Some(m) =>
        if "data" !in m then t
        else
          var data := TrimSpace(m["data"]);
          if data == [] || data[0] != BRACE || !CompletionLike(e, data) then t
          else if "success" in m || ("object" !in m && "choices" !in m) then data
          else t
  }

  /** Takes at most `n` envelopes off. */
  function Unwrap(e: Env, cur: bytes, n: nat): bytes
    decreases n
  {
    if n == 0 then cur
    else
      var next := UnwrapOnce(e, cur);
      if next == cur then next else Unwrap(e, next, n - 1)
  }

  predicate HasTopLevelUsage(e: Env, raw: bytes) {
    match e.codec.Fields(TrimSpace(raw))
    case None => false
    case Some(o) => !UsageIn(Get(o, "usage")).Empty()
  }

  function LiftUsage(e: Env, raw: bytes): bytes {
    var t := TrimSpace(raw);
    if HasTopLevelUsage(e, t) then t
    else match e.codec.members(t)
      case None => t
      case Some(m) =>
        if "data" !in m then t
        else match e.codec.members(m["data"])
          case None => t
          case Some(inner) =>
            if "usage" !in inner then t
            else
              var usage := TrimSpace(inner["usage"]);
              if usage == [] || usage[0] != BRACE then t
              else e.codec.write(m["usage" := usage])
  }

  function ApplyPolicy(e: Env, raw: bytes): bytes {
    if e.policy.Keep? then raw
    else
      var t := TrimSpace(raw);
      if t == [] || t[0] != BRACE then t
      else match e.codec.members(t)
        case None => t
        case Some(m) =>
          if "provider" !in m && !CompletionLike(e, t) then t
          else if e.policy.Replace? then e.codec.write(m["provider" := e.codec.encode(Str(e.policy.provider))])
          else if "provider" !in m then t
          else e.codec.write(m - {"provider"})
  }

  function Normalize(e: Env, raw: bytes): bytes {
    ApplyPolicy(e, LiftUsage(e, Unwrap(e, TrimSpace(raw), 3)))
  }

  // ---------------------------------------------------------------- one line

  datatype Rewritten = Rewritten(text: bytes, hold: bool, usage: bool)

  const DATA_SPACE: bytes := DATA + [32]

  predicate IsDone(b: bytes) {
    var t := TrimSpace(b);
    t == DONE || TrimSpace(if HasPrefix(t, DATA) then t[|DATA|..] else t) == DONE
  }

  /** A data line with payload `p`. */
  function RewriteData(e: Env, line: bytes, p: bytes): Rewritten {
    if p == [] then Rewritten(line, false, false)
    else if IsDone(p) then Rewritten([], true, false)
    else
      var n := Normalize(e, p);
      Rewritten(if n == p then line else DATA_SPACE + n, false, HasTopLevelUsage(e, n))
  }

  function RewriteLine(e: Env, line: bytes): Rewritten {
    var t := TrimSpace(line);
    if IsDone(t) then Rewritten([], true, false)
    else if HasPrefix(t, DATA) then RewriteData(e, line, TrimSpace(t[|DATA|..]))
    else if t != [] && t[0] == BRACE then
      var n := Normalize(e, t);
      Rewritten(n, false, HasTopLevelUsage(e, n))
    else Rewritten(line, false, false)
  }

  /** A raw line, taken without its line feed, split into its text and its line ending. */
  function Text(raw: bytes): bytes {
    if HasSuffix(raw, [CR]) then raw[..|raw| - 1] else raw
  }

  function Ending(raw: bytes): bytes {
    if HasSuffix(raw, [CR]) then [CR, LF] else [LF]
  }

  // ---------------------------------------------------------------- the stream as a fold

  /** What the rewriter remembers between lines. */
  datatype Memory = Memory(held: bytes, sawUsage: bool)

  const BLANK := Memory([], false)

  /** How one line, freed of its ending, is rewritten. */
  type LineRule = bytes -> Rewritten

  function Rule(e: Env): LineRule {
    line => RewriteLine(e, line)
  }

  function TakeLine(f: LineRule, m: Memory, raw: bytes): (Memory, bytes) {
    var line := f(Text(raw));
    if line.hold then (m.(held := Text(raw) + Ending(raw)), [])
    else (m.(sawUsage := m.sawUsage || line.usage), line.text + Ending(raw))
  }

  function TakeLines(f: LineRule, m: Memory, lines: seq<bytes>): (Memory, bytes)
    decreases |lines|
  {
    if lines == [] then (m, [])
    else
      var (m1, o1) := TakeLine(f, m, lines[0]);
      var (m2, o2) := TakeLines(f, m1, lines[1..]);
      (m2, o1 + o2)
  }

  function UsageFrame(e: Env, u: TokenUsage): bytes {
    var t := u.WithTotal();
    var payload := e.codec.encode(Obj(map["usage" := Obj(map[
      "prompt_tokens" := Num(t.input as real),
      "completion_tokens" := Num(t.output as real),
      "total_tokens" := Num(t.total as real)])]));
    DATA_SPACE + ApplyPolicy(e, payload) + [LF, LF]
  }

  /** The end of the stream: the unterminated last line, the usage frame, the held DONE. */
  function Tail(e: Env, m: Memory, pending: bytes): (Memory, bytes) {
    if pending == [] then (m, [])
    else
      var rest := TrimSpace(pending);
      if rest != [] && rest[0] == BRACE then
        var n := Normalize(e, pending);
        (m.(sawUsage := m.sawUsage || HasTopLevelUsage(e, n)), n)
      else
        var line := RewriteLine(e, TrimLineEnd(pending));
        if line.hold then (m.(held := m.held + TrimLineEnd(pending)), [])
        else (m.(sawUsage := m.sawUsage || line.usage), line.text)
  }

  /** The usage frame, when usage was recorded and no forwarded line showed it. */
  function OwedFrame(e: Env, sawUsage: bool, u: TokenUsage): bytes {
    if !sawUsage && !u.Empty() then UsageFrame(e, u) else []
  }

  /** The last bytes, then the usage frame if it is owed, then the held DONE. */
  function Sealed(e: Env, m: Memory, tail: bytes, u: TokenUsage): bytes {
    tail + OwedFrame(e, m.sawUsage, u) + m.held
  }

  function Closing(e: Env, m: Memory, pending: bytes, u: TokenUsage): bytes {
    var (m', tail) := Tail(e, m, pending);
    Sealed(e, m', tail, u)
  }

  /** All bytes a client receives for an upstream stream that recorded usage `u`. */
  function ClientBytes(e: Env, stream: bytes, u: TokenUsage): bytes {
    var (m, out) := TakeLines(Rule(e), BLANK, Lines(stream));
    out + Closing(e, m, Rest(stream), u)
  }

  lemma LineTaken(taken: seq<bytes>, s: bytes)
    ensures var i := IndexLF(s);
      if i < 0 then taken + Lines(s) == taken && Rest(s) == s
      else taken + Lines(s) == taken + [s[..i]] + Lines(s[i + 1..]) && Rest(s) == Rest(s[i + 1..])
  {
    FirstLine(s);
    var i := IndexLF(s);
    if i < 0 {
      assert taken + [] == taken;
    } else {
      Seqs.Assoc(taken, [s[..i]], Lines(s[i + 1..]));
    }
  }

  lemma FirstLine(s: bytes)
    ensures IndexLF(s) < 0 ==> Lines(s) == [] && Rest(s) == s
    ensures var i := IndexLF(s);
      i >= 0 ==> Lines(s) == [s[..i]] + Lines(s[i + 1..]) && Rest(s) == Rest(s[i + 1..])
  {
  }

  // ---------------------------------------------------------------- the rewriter object

  class Rewriter {
    const env: Env
    var pending: bytes
    var held: bytes
    var sawUsage: bool

    constructor (env: Env)
      ensures this.env == env && pending == [] && View() == BLANK
    {
      this.env := env;
      pending, held, sawUsage := [], [], false;
    }

    function View(): Memory
      reads this
    {
      Memory(held, sawUsage)
    }

    /** The body of the line loop: one complete line, its line feed already removed. */
    method Take(raw: bytes) returns (out: bytes)
      modifies `held, `sawUsage
      ensures (View(), out) == TakeLine(Rule(env), old(View()), raw)
    {
      var crlf := HasSuffix(raw, [CR]);
      var line := if crlf then raw[..|raw| - 1] else raw;
      var newline := if crlf then [CR, LF] else [LF];
      var rewritten := RewriteLine(env, line);
      if rewritten.hold {
        held := line + newline;
        return [];
      }
      sawUsage := sawUsage || rewritten.usage;
      if rewritten.text == [] && TrimSpace(line) == [] {
        assert rewritten.text + newline == newline;
        return newline;
      }
      out := rewritten.text + newline;
    }

    method Transform(input: bytes) returns (out: bytes)
      modifies this
      ensures (View(), out) == TakeLines(Rule(env), old(View()), Lines(old(pending) + input))
      ensures pending == Rest(old(pending) + input)
    {
      pending := pending + input;
      out := [];
      ghost var f, m, whole, taken := Rule(env), View(), pending, [];
      while true
        invariant Lines(whole) == taken + Lines(pending) && Rest(pending) == Rest(whole)
        invariant (View(), out) == TakeLines(f, m, taken)
        decreases |pending|
      {
        var i := IndexLF(pending);
        LineTaken(taken, pending);
        if i < 0 {
          break;
        }
        var raw := pending[..i];
        TakeLinesSnoc(f, m, taken, raw);
        pending := pending[i + 1..];
        var o := Take(raw);
        out := out + o;
        taken := taken + [raw];
      }
    }

    /** The unterminated last line. */
    method TakeTail() returns (out: bytes)
      modifies this
      ensures (View(), out) == Tail(env, old(View()), old(pending))
      ensures pending == []
    {
      out := [];
      if |pending| > 0 {
        var rest := TrimSpace(pending);
        if |rest| > 0 && rest[0] == BRACE {
          out := Normalize(env, pending);
          if HasTopLevelUsage(env, out) {
            sawUsage := true;
          }
        } else {
          var rewritten := RewriteLine(env, TrimLineEnd(pending));
          sawUsage := sawUsage || rewritten.usage;
          if rewritten.hold {
            held := held + TrimLineEnd(pending);
          } else if |rewritten.text| > 0 {
            out := rewritten.text;
          }
        }
        pending := [];
      }
    }

    /** The usage frame, unless usage was seen or is empty, and the held DONE. */
    method Seal(tail: bytes, u: TokenUsage) returns (out: bytes)
      modifies `held, `sawUsage
      ensures out == Sealed(env, old(View()), tail, u)
      ensures held == [] && sawUsage == (old(sawUsage) || !u.Empty())
    {
      out := tail;
      if !sawUsage && !u.Empty() {
        out := out + UsageFrame(env, u);
        sawUsage := true;
      }
      if |held| > 0 {
        out := out + held;
        held := [];
      }
    }

    method Finish(u: TokenUsage) returns (out: bytes)
      modifies this
      ensures out == Closing(env, old(View()), old(pending), u)
      ensures pending == [] && held == []
      ensures sawUsage == (Tail(env, old(View()), old(pending)).0.sawUsage || !u.Empty())
    {
      out := TakeTail();
      out := Seal(out, u);
    }
  }

  // ---------------------------------------------------------------- cuts do not matter

  lemma {:induction false} TakeLinesConcat(f: LineRule, m: Memory, a: seq<bytes>, b: seq<bytes>)
    ensures var (m1, o1) := TakeLines(f, m, a);
      var (m2, o2) := TakeLines(f, m1, b);
      TakeLines(f, m, a + b) == (m2, o1 + o2)
    decreases |a|
  {
    if a == [] {
      assert a + b == b;
      assert [] + TakeLines(f, m, b).1 == TakeLines(f, m, b).1;
    } else {
      assert (a + b)[0] == a[0] && (a + b)[1..] == a[1..] + b;
      var (m1, o1) := TakeLine(f, m, a[0]);
      TakeLinesConcat(f, m1, a[1..], b);
      var (m2, o2) := TakeLines(f, m1, a[1..]);
      Seqs.Assoc(o1, o2, TakeLines(f, m2, b).1);
    }
  }

  lemma TakeLinesSnoc(f: LineRule, m: Memory, a: seq<bytes>, raw: bytes)
    ensures var (m1, o1) := TakeLines(f, m, a);
      var (m2, o2) := TakeLine(f, m1, raw);
      TakeLines(f, m, a + [raw]) == (m2, o1 + o2)
  {
    TakeLinesConcat(f, m, a, [raw]);
    var (m2, o2) := TakeLine(f, TakeLines(f, m, a).0, raw);
    assert TakeLines(f, m2, []) == (m2, []) && o2 + [] == o2;
  }
}

/** What rewriting a payload means: the byte-level steps refine operations on decoded objects. */
module Meaning {
  import opened Bytes
  import opened Json
  import opened Usage
  import opened Stream
  import Shape

  type Members = map<string, Value>

  function Object(e: Env, t: bytes): Option<Members> {
    match e.codec.parse(t)
    case Some(Obj(o)) => Some(o)
    case _ => None
  }

  // ---------------------------------------------------------------- on objects

  predicate Completion(o: Members) {
    "object" in o || "choices" in o || "usage" in o || "delta" in o
  }

  /** An envelope around a completion: it reports success, or is no completion itself. */
  predicate Enveloped(o: Members) {
    && Get(o, "data").Obj? && Completion(Get(o, "data").members)
    && ("success" in o || ("object" !in o && "choices" !in o))
  }

  function OpenedOnce(o: Members): Members {
    if Enveloped(o) then Get(o, "data").members else o
  }

  /** At most `n` envelopes taken off. */
  function Opened(o: Members, n: nat): Members
    decreases n
  {
    if n == 0 then o else Opened(OpenedOnce(o), n - 1)
  }

  /** Usage reported inside a data member moves to the top, unless the top reports some. */
  function WithUsage(o: Members): Members {
    if !UsageIn(Get(o, "usage")).Empty() then o
    else
      match Get(o, "data")
      case Obj(inner) => if Get(inner, "usage").Obj? then o["usage" := Get(inner, "usage")] else o
      case _ => o
  }

  function WithPolicy(o: Members, policy: Policy): Members {
    match policy
    case Keep => o
    case Hide => o - {"provider"}
    case Replace(p) => if "provider" in o || Completion(o) then o["provider" := Str(p)] else o
  }

  // ---------------------------------------------------------------- envelopes

  lemma CompletionMeans(e: Env, t: bytes, o: Members)
    requires e.codec.Lawful() && Object(e, t) == Some(o)
    ensures CompletionLike(e, t) <==> Completion(o)
  {
    var m := e.codec.RawMembers(t, o);
    assert m.Keys == o.Keys;
  }

  lemma UnwrapOnceMeans(e: Env, t: bytes, o: Members)
    requires e.codec.Lawful() && Object(e, t) == Some(o)
    ensures Object(e, UnwrapOnce(e, t)) == Some(OpenedOnce(o))
    ensures TrimSpace(UnwrapOnce(e, t)) == UnwrapOnce(e, t)
  {
    var trimmed := TrimSpace(t);
    e.codec.TrimObject(t);
    Shape.TrimIsStable(t);
    var m := e.codec.RawMembers(trimmed, o);
    assert m.Keys == o.Keys;
    if "data" in m {
      Shape.TrimIsStable(m["data"]);
      if o["data"].Obj? {
        e.codec.TrimObject(m["data"]);
        CompletionMeans(e, TrimSpace(m["data"]), o["data"].members);
      } else {
        e.codec.NoObject(m["data"]);
      }
    }
  }

  lemma {:induction false} OpenedStays(o: Members, n: nat)
    requires OpenedOnce(o) == o
    ensures Opened(o, n) == o
  {
    if n > 0 {
      OpenedStays(o, n - 1);
    }
  }

  lemma {:induction false} UnwrapMeans(e: Env, t: bytes, o: Members, n: nat)
    requires e.codec.Lawful() && Object(e, t) == Some(o) && TrimSpace(t) == t
    ensures Object(e, Unwrap(e, t, n)) == Some(Opened(o, n))
    ensures TrimSpace(Unwrap(e, t, n)) == Unwrap(e, t, n)
    decreases n
  {
    if n > 0 {
      UnwrapOnceMeans(e, t, o);
      if UnwrapOnce(e, t) == t {
        OpenedStays(o, n);
      } else {
        UnwrapMeans(e, UnwrapOnce(e, t), OpenedOnce(o), n - 1);
      }
    }
  }

  // ---------------------------------------------------------------- usage

  lemma TopLevelUsageOf(e: Env, t: bytes, o: Members)
    requires TrimSpace(t) == t && Object(e, t) == Some(o)
    ensures HasTopLevelUsage(e, t) <==> !UsageIn(Get(o, "usage")).Empty()
  {
  }

  lemma Lifted(e: Env, t: bytes, m: map<string, bytes>, inner: map<string, bytes>)
    requires TrimSpace(t) == t && !HasTopLevelUsage(e, t) && e.codec.members(t) == Some(m)
    requires "data" in m && e.codec.members(m["data"]) == Some(inner) && "usage" in inner
    requires TrimSpace(inner["usage"]) != [] && TrimSpace(inner["usage"])[0] == BRACE
    ensures LiftUsage(e, t) == e.codec.write(m["usage" := TrimSpace(inner["usage"])])
  {
  }

  lemma LiftInner(e: Env, t: bytes, o: Members, m: map<string, bytes>, inner: Members)
    requires e.codec.Lawful() && TrimSpace(t) == t && !HasTopLevelUsage(e, t)
    requires e.codec.members(t) == Some(m) && e.codec.Agree(m, o) && Object(e, t) == Some(o)
    requires Get(o, "data") == Obj(inner) && "data" in o
    ensures Object(e, LiftUsage(e, t)) ==
            Some(if Get(inner, "usage").Obj? then o["usage" := Get(inner, "usage")] else o)
    ensures TrimSpace(LiftUsage(e, t)) == LiftUsage(e, t)
  {
    var innerRaw := e.codec.RawMembers(m["data"], inner);
    assert innerRaw.Keys == inner.Keys;
    if Get(inner, "usage").Obj? {
      e.codec.TrimObject(innerRaw["usage"]);
      Lifted(e, t, m, innerRaw);
      e.codec.WriteUpdated(m, o, "usage", TrimSpace(innerRaw["usage"]), inner["usage"]);
    } else if "usage" in inner {
      e.codec.NoObject(innerRaw["usage"]);
    }
  }

  lemma LiftMeans(e: Env, t: bytes, o: Members)
    requires e.codec.Lawful() && TrimSpace(t) == t && Object(e, t) == Some(o)
    ensures Object(e, LiftUsage(e, t)) == Some(WithUsage(o))
    ensures TrimSpace(LiftUsage(e, t)) == LiftUsage(e, t)
  {
    TopLevelUsageOf(e, t, o);
    var m := e.codec.RawMembers(t, o);
    assert m.Keys == o.Keys;
    if !HasTopLevelUsage(e, t) && "data" in o {
      if o["data"].Obj? {
        LiftInner(e, t, o, m, o["data"].members);
      } else {
        e.codec.NoObject(m["data"]);
      }
    }
  }

  // ---------------------------------------------------------------- the provider policy

  lemma Hidden(e: Env, t: bytes, m: map<string, bytes>)
    requires e.policy.Hide? && TrimSpace(t) == t && t != [] && t[0] == BRACE && e.codec.members(t) == Some(m)
    ensures ApplyPolicy(e, t) == if "provider" in m then e.codec.write(m - {"provider"}) else t
  {
  }

  lemma Replaced(e: Env, t: bytes, m: map<string, bytes>)
    requires e.policy.Replace? && TrimSpace(t) == t && t != [] && t[0] == BRACE && e.codec.members(t) == Some(m)
    ensures ApplyPolicy(e, t)
         == if "provider" in m || CompletionLike(e, t)
            then e.codec.write(m["provider" := e.codec.encode(Str(e.policy.provider))]) else t
  {
  }

  lemma HideMeans(e: Env, t: bytes, o: Members, m: map<string, bytes>)
    requires e.codec.Lawful() && e.policy.Hide? && TrimSpace(t) == t && t != [] && t[0] == BRACE
    requires Object(e, t) == Some(o) && e.codec.members(t) == Some(m) && e.codec.Agree(m, o)
    ensures Object(e, ApplyPolicy(e, t)) == Some(o - {"provider"})
    ensures TrimSpace(ApplyPolicy(e, t)) == ApplyPolicy(e, t)
  {
    assert m.Keys == o.Keys;
    Hidden(e, t, m);
    if "provider" in m {
      e.codec.WriteWithout(m, o, "provider");
    } else {
      assert o - {"provider"} == o;
    }
  }

  lemma ReplaceMeans(e: Env, t: bytes, o: Members, m: map<string, bytes>)
    requires e.codec.Lawful() && e.policy.Replace? && TrimSpace(t) == t && t != [] && t[0] == BRACE
    requires Object(e, t) == Some(o) && e.codec.members(t) == Some(m) && e.codec.Agree(m, o)
    ensures Object(e, ApplyPolicy(e, t)) == Some(WithPolicy(o, e.policy))
    ensures TrimSpace(ApplyPolicy(e, t)) == ApplyPolicy(e, t)
  {
    assert m.Keys == o.Keys;
    CompletionMeans(e, t, o);
    Replaced(e, t, m);
    e.codec.WriteEncoded(m, o, "provider", Str(e.policy.provider));
  }

  lemma PolicyMeans(e: Env, t: bytes, o: Members)
    requires e.codec.Lawful() && TrimSpace(t) == t && Object(e, t) == Some(o)
    ensures Object(e, ApplyPolicy(e, t)) == Some(WithPolicy(o, e.policy))
    ensures TrimSpace(ApplyPolicy(e, t)) == ApplyPolicy(e, t)
  {
    e.codec.TrimObject(t);
    var m := e.codec.RawMembers(t, o);
    match e.policy
    case Keep =>
    case Hide => HideMeans(e, t, o, m);
    case Replace(_) => ReplaceMeans(e, t, o, m);
  }

  /** The policy touches the provider member and nothing else: hiding removes it, replacing sets
      it on completions and wherever it was present. */
  lemma PolicyTouchesOnlyProvider(e: Env, t: bytes, o: Members)
    requires e.codec.Lawful() && TrimSpace(t) == t && Object(e, t) == Some(o)
    ensures var r := Object(e, ApplyPolicy(e, t));
      && r.Some?
      && r.value - {"provider"} == o - {"provider"}
      && match e.policy
         case Keep => r.value == o
         case Hide => "provider" !in r.value
         case Replace(p) => ("provider" in o || Completion(o) ==> Get(r.value, "provider") == Str(p))
  {
    PolicyMeans(e, t, o);
  }

  // ---------------------------------------------------------------- whole payloads

  /** Normalising the bytes of an object means: take up to three envelopes off, move usage up,
      apply the provider policy. Whether a line counts as showing usage is read off the result. */
  lemma NormalizeMeans(e: Env, t: bytes, o: Members)
    requires e.codec.Lawful() && Object(e, t) == Some(o)
    ensures var r := WithPolicy(WithUsage(Opened(o, 3)), e.policy);
      && Object(e, Normalize(e, t)) == Some(r)
      && (HasTopLevelUsage(e, Normalize(e, t)) <==> !UsageIn(Get(r, "usage")).Empty())
  {
    e.codec.TrimObject(t);
    Shape.TrimIsStable(t);
    var bare := Unwrap(e, TrimSpace(t), 3);
    UnwrapMeans(e, TrimSpace(t), o, 3);
    LiftMeans(e, bare, Opened(o, 3));
    PolicyMeans(e, LiftUsage(e, bare), WithUsage(Opened(o, 3)));
    TopLevelUsageOf(e, Normalize(e, t), WithPolicy(WithUsage(Opened(o, 3)), e.policy));
  }

  /** Usage at the top of an object or inside its data member: the two places a line keeps. */
  predicate Reports(o: Members) {
    !UsageIn(Get(o, "usage")).Empty() || !NestedUsage(o, "data").Empty()
  }

  predicate Shows(o: Members, policy: Policy) {
    !UsageIn(Get(WithPolicy(WithUsage(Opened(o, 3)), policy), "usage")).Empty()
  }

  /** A rewritten line shows usage exactly when the object freed of its envelopes reports some in
      one of the two places, under every policy. */
  lemma ShownExactly(o: Members, policy: Policy)
    ensures Shows(o, policy) <==> Reports(Opened(o, 3))
  {
    var bare := Opened(o, 3);
    assert Get(WithPolicy(WithUsage(bare), policy), "usage") == Get(WithUsage(bare), "usage");
  }

  /** Where the parser finds usage that the rewritten line no longer shows. Without an envelope:
      exactly when it is only in the message, in the response or in the object itself. With one
      envelope: exactly when neither the object inside nor its data member has any, so also when
      usage stands beside the envelope. With more, the innermost object decides. */
  lemma LostExactly(o: Members, policy: Policy)
    requires UsageFrom(o).Some?
    ensures !Enveloped(o) ==>
      (!Shows(o, policy) <==>
         && UsageIn(Get(o, "usage")).Empty() && NestedUsage(o, "data").Empty()
         && (!NestedUsage(o, "message").Empty() || !NestedUsage(o, "response").Empty() || !TokensFrom(o).Empty()))
    ensures Enveloped(o) && !Enveloped(Get(o, "data").members) ==>
      (!Shows(o, policy) <==> NestedUsage(o, "data").Empty() && NestedUsage(Get(o, "data").members, "data").Empty())
    ensures Enveloped(o) ==> (!Shows(o, policy) <==> !Reports(Opened(Get(o, "data").members, 2)))
  {
    ShownExactly(o, policy);
    if !Enveloped(o) {
      OpenedStays(o, 3);
      UsageFromFindsSome(o);
    } else {
      var inner := Get(o, "data").members;
      assert Opened(o, 3) == Opened(inner, 2);
      if !Enveloped(inner) {
        OpenedStays(inner, 2);
      }
    }
  }

  // ---------------------------------------------------------------- whole lines

  /** A DONE marker under at most `n` data prefixes, with any white space around it. */
  predicate Marker(t: bytes, n: nat)
    decreases n
  {
    t == DONE || (n > 0 && HasPrefix(t, DATA) && Marker(TrimSpace(t[|DATA|..]), n - 1))
  }

  lemma DoneIsMarker(t: bytes)
    requires TrimSpace(t) == t
    ensures IsDone(t) <==> Marker(t, 1)
  {
    assert Marker(t, 1) <==> t == DONE || (HasPrefix(t, DATA) && TrimSpace(t[|DATA|..]) == DONE);
  }

  lemma HeldWhenDone(e: Env, line: bytes)
    ensures var t := TrimSpace(line);
      RewriteLine(e, line).hold <==> IsDone(t) || (HasPrefix(t, DATA) && IsDone(TrimSpace(t[|DATA|..])))
  {
  }

  /** A line is held back exactly when it is a DONE marker, bare or behind one or two prefixes. */
  lemma HeldExactlyDone(e: Env, line: bytes)
    ensures RewriteLine(e, line).hold <==> Marker(TrimSpace(line), 2)
  {
    var t := TrimSpace(line);
    HeldWhenDone(e, line);
    Shape.TrimIsStable(line);
    DoneIsMarker(t);
    if HasPrefix(t, DATA) {
      Shape.TrimIsStable(t[|DATA|..]);
      DoneIsMarker(TrimSpace(t[|DATA|..]));
    }
  }

  /** The payload of a line: what follows the data prefix, or a bare object. */
  function PayloadOf(line: bytes): bytes {
    var t := TrimSpace(line);
    if HasPrefix(t, DATA) then TrimSpace(t[|DATA|..]) else t
  }

  lemma ObjectIsNoMarker(e: Env, p: bytes)
    requires e.codec.Lawful() && Object(e, p).Some? && TrimSpace(p) == p
    ensures p != [] && p[0] == BRACE && !IsDone(p)
  {
    e.codec.TrimObject(p);
    assert !HasPrefix(p, DATA) && p != DONE;
  }

  lemma LineRewrites(e: Env, line: bytes)
    requires PayloadOf(line) != [] && PayloadOf(line)[0] == BRACE && !IsDone(PayloadOf(line))
    ensures var n := Normalize(e, PayloadOf(line));
      RewriteLine(e, line) == Rewritten(
        if !HasPrefix(TrimSpace(line), DATA) then n else if n == PayloadOf(line) then line else DATA_SPACE + n,
        false, HasTopLevelUsage(e, n))
  {
    Shape.TrimIsStable(line);
    if HasPrefix(TrimSpace(line), DATA) {
      assert TrimSpace(line) != DONE && PayloadOf(line) != DONE;
    }
  }

  /** A line with an object as payload is forwarded: its payload now means the normalised object,
      a data line stays a data line, and the line counts as showing usage exactly when that
      object has usage at its top. */
  lemma LineMeans(e: Env, line: bytes, o: Members)
    requires e.codec.Lawful() && Object(e, PayloadOf(line)) == Some(o)
    ensures var r, n := RewriteLine(e, line), Normalize(e, PayloadOf(line));
      var meant := WithPolicy(WithUsage(Opened(o, 3)), e.policy);
      && !r.hold && Object(e, n) == Some(meant)
      && (r.usage <==> !UsageIn(Get(meant, "usage")).Empty())
      && r.text == (if !HasPrefix(TrimSpace(line), DATA) then n
                    else if n == PayloadOf(line) then line
                    else DATA_SPACE + n)
  {
    var t := TrimSpace(line);
    Shape.TrimIsStable(line);
    if HasPrefix(t, DATA) {
      Shape.TrimIsStable(t[|DATA|..]);
    }
    ObjectIsNoMarker(e, PayloadOf(line));
    LineRewrites(e, line);
    NormalizeMeans(e, PayloadOf(line), o);
  }

  lemma NoObjectIsNormal(e: Env, p: bytes)
    requires e.codec.Lawful() && TrimSpace(p) == p && Object(e, p).None?
    requires e.codec.parse(p).None? ==> e.codec.members(p).None?
    ensures Normalize(e, p) == p && !HasTopLevelUsage(e, p)
  {
    if e.codec.parse(p).Some? {
      e.codec.NoObject(p);
    }
    assert UnwrapOnce(e, p) == p;
    assert LiftUsage(e, p) == p;
  }

  /** A line without an object as payload that is no DONE marker is forwarded as it is: comments,
      event names, blank lines, broken JSON. Only a bare line that looks like an object and is none
      loses the white space around it. */
  lemma PlainLineUnchanged(e: Env, line: bytes)
    requires e.codec.Lawful() && Object(e, PayloadOf(line)).None? && !Marker(TrimSpace(line), 2)
    requires e.codec.parse(PayloadOf(line)).None? ==> e.codec.members(PayloadOf(line)).None?
    ensures var t := TrimSpace(line);
      RewriteLine(e, line) == Rewritten(if t != [] && t[0] == BRACE then t else line, false, false)
  {
    var t := TrimSpace(line);
    HeldExactlyDone(e, line);
    Shape.TrimIsStable(line);
    if HasPrefix(t, DATA) {
      Shape.TrimIsStable(t[|DATA|..]);
    }
    NoObjectIsNormal(e, PayloadOf(line));
    HeldWhenDone(e, line);
    PlainRewrites(e, line);
  }

  lemma DataLineIs(e: Env, line: bytes)
    requires HasPrefix(TrimSpace(line), DATA) && !IsDone(TrimSpace(line))
    ensures RewriteLine(e, line) == RewriteData(e, line, PayloadOf(line))
  {
  }

  lemma BareLineIs(e: Env, line: bytes)
    requires !HasPrefix(TrimSpace(line), DATA) && !IsDone(TrimSpace(line))
    ensures var t := TrimSpace(line);
      RewriteLine(e, line) ==
      if t != [] && t[0] == BRACE then Rewritten(Normalize(e, t), false, HasTopLevelUsage(e, Normalize(e, t)))
      else Rewritten(line, false, false)
  {
  }

  lemma PlainRewrites(e: Env, line: bytes)
    requires !IsDone(TrimSpace(line)) && (HasPrefix(TrimSpace(line), DATA) ==> !IsDone(PayloadOf(line)))
    requires Normalize(e, PayloadOf(line)) == PayloadOf(line) && !HasTopLevelUsage(e, PayloadOf(line))
    ensures var t := TrimSpace(line);
      RewriteLine(e, line) == Rewritten(if t != [] && t[0] == BRACE then t else line, false, false)
  {
    if HasPrefix(TrimSpace(line), DATA) {
      DataLineIs(e, line);
      PlainData(e, line, PayloadOf(line));
      DataIsNoBrace(TrimSpace(line));
    } else {
      BareLineIs(e, line);
    }
  }

  lemma PlainData(e: Env, line: bytes, p: bytes)
    requires Normalize(e, p) == p && !HasTopLevelUsage(e, p)
    ensures !IsDone(p) ==> RewriteData(e, line, p) == Rewritten(line, false, false)
  {
  }

  lemma DataIsNoBrace(t: bytes)
    requires HasPrefix(t, DATA)
    ensures t != [] && t[0] != BRACE
  {
    assert t[0] == t[..|DATA|][0];
  }

  lemma TrimFrame(n: bytes)
    requires TrimSpace(n) == n && n != [] && n[0] == BRACE
    ensures TrimSpace(DATA_SPACE + n) == DATA_SPACE + n
    ensures TrimSpace((DATA_SPACE + n)[|DATA|..]) == n
  {
    var framed, spaced := DATA_SPACE + n, [32] + n;
    assert TrimLeft(n) == n && TrimRight(n) == n;
    assert TrailingSpace(n) == 0 by {
      Shape.TrimRightDone(n);
    }
    assert framed[0] == 100 && framed[|framed| - 1] == n[|n| - 1];
    assert |n| >= 2 ==> framed[|framed| - 2] == n[|n| - 2];
    assert |n| >= 3 ==> framed[|framed| - 3] == n[|n| - 3];
    assert |n| == 1 ==> framed[|framed| - 2] == 32;
    assert |n| == 2 ==> framed[|framed| - 3] == 32;
    assert TrailingSpace(framed) == 0 && LeadingSpace(framed) == 0;
    assert framed[|DATA|..] == spaced && spaced[0] == 32 && spaced[1..] == n;
    assert TrimLeft(spaced) == TrimLeft(n);
  }

  /** A data line with an object as payload comes out byte for byte if and only if the payload is
      already normal. */
  lemma UnchangedExactlyNormal(e: Env, line: bytes, o: Members)
    requires e.codec.Lawful() && HasPrefix(TrimSpace(line), DATA) && Object(e, PayloadOf(line)) == Some(o)
    ensures RewriteLine(e, line).text == line <==> Normalize(e, PayloadOf(line)) == PayloadOf(line)
  {
    var n := Normalize(e, PayloadOf(line));
    LineMeans(e, line, o);
    NormalizeIsTrimmed(e, PayloadOf(line), o);
    e.codec.TrimObject(n);
    TrimFrame(n);
  }

  lemma NormalizeIsTrimmed(e: Env, t: bytes, o: Members)
    requires e.codec.Lawful() && Object(e, t) == Some(o)
    ensures TrimSpace(Normalize(e, t)) == Normalize(e, t) && Object(e, Normalize(e, t)).Some?
  {
    e.codec.TrimObject(t);
    Shape.TrimIsStable(t);
    UnwrapMeans(e, TrimSpace(t), o, 3);
    LiftMeans(e, Unwrap(e, TrimSpace(t), 3), Opened(o, 3));
    PolicyMeans(e, LiftUsage(e, Unwrap(e, TrimSpace(t), 3)), WithUsage(Opened(o, 3)));
  }

  // ---------------------------------------------------------------- the injected frame

  function FrameUsage(t: TokenUsage): Members {
    map["prompt_tokens" := Num(t.input as real), "completion_tokens" := Num(t.output as real),
        "total_tokens" := Num(t.total as real)]
  }

  lemma WholeNumber(n: int)
    ensures AsInt(Num(n as real)) == n
  {
  }

  lemma FrameTokens(t: TokenUsage)
    ensures TokensFrom(FrameUsage(t)) == TokenUsage(t.input, t.output, 0, 0, 0, t.total)
  {
    var m := FrameUsage(t);
    WholeNumber(t.input);
    WholeNumber(t.output);
    WholeNumber(t.total);
    TokensAre(m);
  }

  /** The injected frame is one data line with a blank line after it; a client that reads it
      finds the recorded input, output and total tokens, under every policy. */
  lemma FrameReportsUsage(e: Env, u: TokenUsage) returns (payload: bytes)
    requires e.codec.Lawful()
    ensures UsageFrame(e, u) == DATA_SPACE + payload + [LF, LF]
    ensures var t := u.WithTotal();
      Object(e, payload).Some? &&
      UsageIn(Get(Object(e, payload).value, "usage")) == TokenUsage(t.input, t.output, 0, 0, 0, t.total)
  {
    var t := u.WithTotal();
    var o: Members := map["usage" := Obj(FrameUsage(t))];
    payload := ApplyPolicy(e, e.codec.encode(Obj(o)));
    FrameIsWhole(e, t, o);
    PolicyMeans(e, e.codec.encode(Obj(o)), o);
    FrameTokens(t);
  }

  lemma FrameIsWhole(e: Env, t: TokenUsage, o: Members)
    requires e.codec.Lawful() && o == map["usage" := Obj(FrameUsage(t))]
    ensures Object(e, e.codec.encode(Obj(o))) == Some(o)
    ensures TrimSpace(e.codec.encode(Obj(o))) == e.codec.encode(Obj(o))
    ensures Get(WithPolicy(o, e.policy), "usage") == Obj(FrameUsage(t))
  {
    assert Whole(Obj(FrameUsage(t)));
    assert Whole(Obj(o));
  }
}

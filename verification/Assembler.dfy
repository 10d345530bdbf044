/** The non-streamed answer: the upstream stream is read whole and assembled into one
    completion object, unless it already contains a complete one. */
module Assembler {
  import opened Bytes
  import opened Json
  import opened Usage
  import opened Stream
  import opened KeyedFold
  import opened Ordered
  import opened A = Assembly

  // ---------------------------------------------------------------- from bytes to objects

  /** The JSON payload of one line, or nothing. */
  function Payload(raw: bytes): seq<bytes> {
    var line := TrimSpace(Stream.Text(raw));
    if line == [] || IsDone(line) then []
    else
      var p := if HasPrefix(line, DATA) then TrimSpace(line[|DATA|..]) else line;
      if p == [] || IsDone(p) || p[0] != BRACE then [] else [p]
  }

  function Decoded(e: Env, payload: bytes): seq<Members> {
    match e.codec.Fields(Unwrap(e, TrimSpace(payload), 3))
    case None => []
    case Some(o) => [o]
  }

  /** The decoded objects of an upstream answer, line by line, the unterminated one included. */
  function Decode(e: Env, raw: bytes): seq<Members> {
    Flat(p => Decoded(e, p), Flat(Payload, Lines(raw) + [Rest(raw)]))
  }

  // ---------------------------------------------------------------- what surrounds the choices

  predicate IsWhole(o: Members) {
    A.Text(Get(o, "object")) == "chat.completion"
  }

  /** The position of the first complete answer, or the length of the sequence. */
  function FirstWhole(objs: seq<Members>, from: nat := 0): (n: nat)
    requires from <= |objs|
    ensures from <= n <= |objs|
    decreases |objs| - from
  {
    if from == |objs| || IsWhole(objs[from]) then from else FirstWhole(objs, from + 1)
  }

  function Present(m: Members, o: Members, k: string, keep: bool): Members {
    if keep then m[k := Get(o, k)] else m
  }

  function AddMeta(m: Members, o: Members): Members {
    var m1 := Present(m, o, "id", A.Text(Get(o, "id")) != "");
    var m2 := Present(m1, o, "created", "created" in o);
    var m3 := Present(m2, o, "model", A.Text(Get(o, "model")) != "");
    var m4 := Present(m3, o, "system_fingerprint", Get(o, "system_fingerprint") != Null);
    Present(m4, o, "service_tier", Get(o, "service_tier") != Null)
  }

  function Meta(objs: seq<Members>): Members
    decreases |objs|
  {
    if objs == [] then map[] else AddMeta(Meta(objs[..|objs| - 1]), objs[|objs| - 1])
  }

  /** The last usage that is not null. */
  function LastUsage(objs: seq<Members>): Value
    decreases |objs|
  {
    if objs == [] then Null
    else
      var u := Get(objs[|objs| - 1], "usage");
      if u != Null then u else LastUsage(objs[..|objs| - 1])
  }

  function UsageObject(u: TokenUsage): Value {
    var t := u.WithTotal();
    Obj(map["prompt_tokens" := Num(t.input as real), "completion_tokens" := Num(t.output as real),
            "total_tokens" := Num(t.total as real)])
  }

  function WholeAnswer(o: Members, before: Value, u: TokenUsage): Members {
    var last := if "usage" in o then o["usage"] else before;
    if last == Null && !u.Empty() then o["usage" := UsageObject(u)] else o
  }

  // ---------------------------------------------------------------- rendering

  function When(m: Members, on: bool, k: string, v: Value): Members {
    if on then m[k := v] else m
  }

  function DetailObject(d: Detail): Value {
    Obj(map["text" := Str(d.text)] + d.meta)
  }

  function ToolObject(i: int, t: Tool): Value {
    var item := map["index" := Num(i as real),
                    "function" := Obj(map["name" := Str(t.name), "arguments" := Str(t.args)])];
    Obj(When(When(item, t.id != "", "id", Str(t.id)), t.kind != "", "type", Str(t.kind)))
  }

  function MessageObject(c: Choice, details: seq<Value>, tools: seq<Value>): Members {
    var m0 := map["role" := Str(if c.role == "" then "assistant" else c.role), "content" := Str(c.content)];
    var m1 := When(m0, c.reasoning != "", "reasoning", Str(c.reasoning));
    var m2 := When(m1, details != [], "reasoning_details", Arr(details));
    var m3 := When(m2, tools != [], "tool_calls", Arr(tools));
    When(m3, c.refusal != Null, "refusal", c.refusal)
  }

  function ChoiceObject(i: int, c: Choice, details: seq<Value>, tools: seq<Value>): Value {
    var m := map["index" := Num(i as real), "message" := Obj(MessageObject(c, details, tools))];
    Obj(When(When(m, c.finish != "", "finish_reason", Str(c.finish)),
             c.nativeFinish != "", "native_finish_reason", Str(c.nativeFinish)))
  }

  function DetailList(details: map<int, Detail>, ks: seq<int>): seq<Value>
    requires forall i :: 0 <= i < |ks| ==> ks[i] in details
  {
    seq(|ks|, i requires 0 <= i < |ks| => DetailObject(details[ks[i]]))
  }

  function ToolList(tools: map<int, Tool>, ks: seq<int>): seq<Value>
    requires forall i :: 0 <= i < |ks| ==> ks[i] in tools
  {
    seq(|ks|, i requires 0 <= i < |ks| => ToolObject(ks[i], tools[ks[i]]))
  }

  ghost function Rendered(i: int, c: Choice): Value {
    ChoiceObject(i, c, DetailList(c.details, Listing(c.details.Keys)), ToolList(c.tools, Listing(c.tools.Keys)))
  }

  ghost function RenderedAll(acc: map<int, Choice>): seq<Value> {
    var ks := Listing(acc.Keys);
    seq(|ks|, n requires 0 <= n < |ks| => Rendered(ks[n], acc[ks[n]]))
  }

  function Envelope(meta: Members, last: Value, u: TokenUsage, choices: seq<Value>): Members {
    var out := map["object" := Str("chat.completion")] + meta;
    var usage := if last != Null then last else UsageObject(u);
    When(out, last != Null || !u.Empty(), "usage", usage)["choices" := Arr(choices)]
  }

  /** What the assembly has gathered so far. */
  datatype Gathered = Gathered(acc: map<int, Choice>, meta: Members, last: Value)

  function Gather(objs: seq<Members>): Gathered {
    Gathered(Choices(objs), Meta(objs), LastUsage(objs))
  }

  ghost function Assembled(g: Gathered, u: TokenUsage): Members {
    Envelope(g.meta, g.last, u, RenderedAll(g.acc))
  }

  /** The assembled answer of a stream. */
  ghost function Answer(objs: seq<Members>, u: TokenUsage): Members {
    var n := FirstWhole(objs);
    if n < |objs| then WholeAnswer(objs[n], Gather(objs[..n]).last, u) else Assembled(Gather(objs), u)
  }

  // ---------------------------------------------------------------- the accumulating loops

  lemma ObjectsSnoc(items: seq<Value>, i: nat)
    requires i < |items|
    ensures Objects(items[..i + 1]) == Objects(items[..i]) + if items[i].Obj? then [items[i].members] else []
  {
    assert items[..i + 1][..i] == items[..i];
  }

  lemma PutAllSnoc<E, A>(f: Fold<E, A>, m: map<int, A>, es: seq<E>, e: E)
    ensures PutAll(f, m, es + [e]) == Put(f, PutAll(f, m, es), e)
  {
    assert (es + [e])[..|es|] == es;
  }

  method MergeToolCalls(before: map<int, Tool>, raw: Value) returns (tools: map<int, Tool>)
    ensures tools == PutAll(ToolFold(), before, Objects(Items(raw)))
  {
    tools := before;
    var items := Items(raw);
    for n := 0 to |items|
      invariant tools == PutAll(ToolFold(), before, Objects(items[..n]))
    {
      ObjectsSnoc(items, n);
      if !items[n].Obj? {
        assert Objects(items[..n]) + [] == Objects(items[..n]);
        continue;
      }
      var m := items[n].members;
      PutAllSnoc(ToolFold(), before, Objects(items[..n]), m);
      var i := IndexOf(m);
      var t := if i in tools then tools[i] else EMPTY_TOOL;
      if A.Text(Get(m, "id")) != "" {
        t := t.(id := A.Text(Get(m, "id")));
      }
      if A.Text(Get(m, "type")) != "" {
        t := t.(kind := A.Text(Get(m, "type")));
      }
      var fn := AsMap(Get(m, "function"));
      if fn.Some? {
        if A.Text(Get(fn.value, "name")) != "" {
          t := t.(name := A.Text(Get(fn.value, "name")));
        }
        t := t.(args := t.args + A.Text(Get(fn.value, "arguments")));
      }
      tools := tools[i := t];
    }
    assert items[..|items|] == items;
  }

  method MergeReasoningDetails(before: map<int, Detail>, raw: Value) returns (details: map<int, Detail>)
    ensures details == PutAll(DetailFold(), before, Objects(Items(raw)))
  {
    details := before;
    var items := Items(raw);
    for n := 0 to |items|
      invariant details == PutAll(DetailFold(), before, Objects(items[..n]))
    {
      ObjectsSnoc(items, n);
      if !items[n].Obj? {
        assert Objects(items[..n]) + [] == Objects(items[..n]);
        continue;
      }
      var m := items[n].members;
      PutAllSnoc(DetailFold(), before, Objects(items[..n]), m);
      var i := IndexOf(m);
      var text := A.Text(Get(m, "text"));
      var d := if i in details then details[i] else EMPTY_DETAIL;
      if !d.started {
        d := d.(started := true, meta := DetailMeta(m));
      }
      details := details[i := d.(text := d.text + text)];
    }
    assert items[..|items|] == items;
  }

  method MergeEntry(before: Choice, entry: Members) returns (c: Choice)
    ensures c == AddEntry(before, entry)
  {
    c := before;
    if A.Text(Get(entry, "finish_reason")) != "" {
      c := c.(finish := A.Text(Get(entry, "finish_reason")));
    }
    if A.Text(Get(entry, "native_finish_reason")) != "" {
      c := c.(nativeFinish := A.Text(Get(entry, "native_finish_reason")));
    }
    var delta := DeltaOf(entry);
    if delta.None? {
      return;
    }
    var d := delta.value;
    if A.Text(Get(d, "role")) != "" {
      c := c.(role := A.Text(Get(d, "role")));
    }
    c := c.(content := c.content + A.Text(Get(d, "content")));
    c := c.(reasoning := c.reasoning + A.Text(Get(d, "reasoning")));
    c := c.(reasoning := c.reasoning + A.Text(Get(d, "reasoning_content")));
    if Get(d, "refusal") != Null {
      c := c.(refusal := Get(d, "refusal"));
    }
    var details := MergeReasoningDetails(c.details, Get(d, "reasoning_details"));
    var tools := MergeToolCalls(c.tools, Get(d, "tool_calls"));
    c := c.(details := details, tools := tools);
  }

  method MergeChunk(before: map<int, Choice>, chunk: Members) returns (acc: map<int, Choice>)
    ensures acc == PutAll(ChoiceFold(), before, EntriesOf(chunk))
  {
    acc := before;
    var items := Items(Get(chunk, "choices"));
    for n := 0 to |items|
      invariant acc == PutAll(ChoiceFold(), before, Objects(items[..n]))
    {
      ObjectsSnoc(items, n);
      if !items[n].Obj? {
        assert Objects(items[..n]) + [] == Objects(items[..n]);
        continue;
      }
      var entry := items[n].members;
      PutAllSnoc(ChoiceFold(), before, Objects(items[..n]), entry);
      var i := IndexOf(entry);
      var c := MergeEntry(if i in acc then acc[i] else EMPTY_CHOICE, entry);
      acc := acc[i := c];
    }
    assert items[..|items|] == items;
  }

  // ---------------------------------------------------------------- the rendering loops

  method RenderChoice(i: int, c: Choice) returns (v: Value)
    ensures v == Rendered(i, c)
  {
    var details, tools := [], [];
    var ds := SortedKeys(c.details);
    for n := 0 to |ds|
      invariant details == DetailList(c.details, ds[..n])
    {
      details := details + [DetailObject(c.details[ds[n]])];
    }
    var ts := SortedKeys(c.tools);
    for n := 0 to |ts|
      invariant tools == ToolList(c.tools, ts[..n])
    {
      tools := tools + [ToolObject(ts[n], c.tools[ts[n]])];
    }
    assert ds[..|ds|] == ds && ts[..|ts|] == ts;
    v := ChoiceObject(i, c, details, tools);
  }

  method RenderChoices(acc: map<int, Choice>) returns (out: seq<Value>)
    ensures out == RenderedAll(acc)
  {
    out := [];
    var ks := SortedKeys(acc);
    for n := 0 to |ks|
      invariant |out| == n && forall j :: 0 <= j < n ==> ks[j] in acc && out[j] == Rendered(ks[j], acc[ks[j]])
    {
      var v := RenderChoice(ks[n], acc[ks[n]]);
      out := out + [v];
    }
  }

  // ---------------------------------------------------------------- the assembly

  function Advance(g: Gathered, obj: Members): Gathered {
    Gathered(PutAll(ChoiceFold(), g.acc, EntriesOf(obj)), AddMeta(g.meta, obj),
             if Get(obj, "usage") != Null then Get(obj, "usage") else g.last)
  }

  lemma GatherSnoc(objs: seq<Members>, n: nat)
    requires n < |objs|
    ensures Gather(objs[..n + 1]) == Advance(Gather(objs[..n]), objs[n])
  {
    assert objs[..n + 1][..n] == objs[..n];
    PutAllConcat(ChoiceFold(), map[], AllEntries(objs[..n]), EntriesOf(objs[n]));
  }

  method MergeObject(g: Gathered, obj: Members) returns (g': Gathered)
    ensures g' == Advance(g, obj)
  {
    var last := g.last;
    if Get(obj, "usage") != Null {
      last := Get(obj, "usage");
    }
    var acc := MergeChunk(g.acc, obj);
    g' := Gathered(acc, AddMeta(g.meta, obj), last);
  }

  method AnswerWhole(obj: Members, before: Value, u: TokenUsage) returns (out: Members)
    ensures out == WholeAnswer(obj, before, u)
  {
    var last := before;
    if "usage" in obj {
      last := obj["usage"];
    }
    out := obj;
    if last == Null && !u.Empty() {
      out := out["usage" := UsageObject(u)];
    }
  }

  /** What is gathered from the first `n` objects, for every `n`. */
  ghost predicate Gathers(gather: nat -> Gathered, objs: seq<Members>) {
    && gather(0) == Gathered(map[], map[], Null)
    && forall n :: 0 <= n < |objs| ==> gather(n + 1) == Advance(gather(n), objs[n])
  }

  lemma GatherIsGathering(objs: seq<Members>)
    ensures Gathers((n: nat) => Gather(if n <= |objs| then objs[..n] else objs), objs)
  {
    assert objs[..0] == [];
    forall n | 0 <= n < |objs| ensures Gather(objs[..n + 1]) == Advance(Gather(objs[..n]), objs[n]) {
      GatherSnoc(objs, n);
    }
  }

  /** The loop over the objects, up to the first complete answer. */
  method GatherWhile(ghost gather: nat -> Gathered, objs: seq<Members>) returns (n: nat, g: Gathered)
    requires Gathers(gather, objs)
    ensures n == FirstWhole(objs) && n <= |objs| && g == gather(n)
  {
    n, g := 0, Gathered(map[], map[], Null);
    while n < |objs| && !IsWhole(objs[n])
      invariant n <= |objs| && forall i :: 0 <= i < n ==> !IsWhole(objs[i])
      invariant g == gather(n)
    {
      g := MergeObject(g, objs[n]);
      n := n + 1;
    }
    FirstWholeIs(objs, 0, n);
  }

  method GatherUntilWhole(objs: seq<Members>) returns (n: nat, g: Gathered)
    ensures n == FirstWhole(objs) && g == Gather(objs[..n])
  {
    GatherIsGathering(objs);
    n, g := GatherWhile((n: nat) => Gather(if n <= |objs| then objs[..n] else objs), objs);
  }

  method AnswerAssembled(g: Gathered, u: TokenUsage) returns (out: Members)
    ensures out == Assembled(g, u)
  {
    var choices := RenderChoices(g.acc);
    out := Envelope(g.meta, g.last, u, choices);
  }

  method Assemble(objs: seq<Members>, u: TokenUsage) returns (out: Members)
    ensures out == Answer(objs, u)
  {
    var n, g := GatherUntilWhole(objs);
    if n < |objs| {
      out := AnswerWhole(objs[n], g.last, u);
    } else {
      assert objs[..n] == objs;
      out := AnswerAssembled(g, u);
    }
  }

  lemma {:induction false} FirstWholeIs(objs: seq<Members>, from: nat, n: nat)
    requires from <= n <= |objs| && (n < |objs| ==> IsWhole(objs[n]))
    requires forall i :: from <= i < n ==> !IsWhole(objs[i])
    ensures FirstWhole(objs, from) == n
    decreases n - from
  {
    if from < n {
      FirstWholeIs(objs, from + 1, n);
    }
  }

  /** The first complete answer is at `n`, or there is none and `n` is the length. */
  ghost predicate WholeIsAt(objs: seq<Members>, n: nat) {
    && n <= |objs| && (n < |objs| ==> IsWhole(objs[n]))
    && forall i :: 0 <= i < n ==> !IsWhole(objs[i])
  }

  lemma AnswerIsWhole(objs: seq<Members>, u: TokenUsage, n: nat)
    requires n < |objs| && WholeIsAt(objs, n)
    ensures Answer(objs, u) == WholeAnswer(objs[n], LastUsage(objs[..n]), u)
  {
    FirstWholeIs(objs, 0, n);
  }

  lemma AnswerIsAssembled(objs: seq<Members>, u: TokenUsage)
    requires WholeIsAt(objs, |objs|)
    ensures Answer(objs, u) == Assembled(Gather(objs), u)
  {
    FirstWholeIs(objs, 0, |objs|);
  }

  /** In an assembled answer the choices come out in strictly ascending index order, one per
      index that occurs, each with the in-order text of its own entries. */
  lemma AnswerChoices(objs: seq<Members>, u: TokenUsage)
    requires forall i :: 0 <= i < |objs| ==> !IsWhole(objs[i])
    ensures var ks, entries := Listing(Choices(objs).Keys), AllEntries(objs);
      && Ascending(ks)
      && (forall i :: i in ks <==> Own(ChoiceFold(), entries, i) != [])
      && Get(Answer(objs, u), "choices").Arr?
      && |Answer(objs, u)["choices"].items| == |ks|
      && forall n :: 0 <= n < |ks| ==>
           var own := Own(ChoiceFold(), entries, ks[n]);
           Answer(objs, u)["choices"].items[n] == Rendered(ks[n], AddAll(ChoiceFold(), EMPTY_CHOICE, own))
  {
    FirstWholeIs(objs, 0, |objs|);
    var ks := Listing(Choices(objs).Keys);
    forall i ensures i in ks <==> Own(ChoiceFold(), AllEntries(objs), i) != [] {
      ChoicesAreIndependent(objs, i);
    }
    forall n | 0 <= n < |ks|
      ensures Choices(objs)[ks[n]] == AddAll(ChoiceFold(), EMPTY_CHOICE, Own(ChoiceFold(), AllEntries(objs), ks[n]))
    {
      ChoicesAreIndependent(objs, ks[n]);
    }
  }

  // ---------------------------------------------------------------- the whole non-streamed path

  predicate LooksLikeStream(raw: bytes) {
    HasPrefix(TrimMargin(raw), DATA)
    || exists i :: 0 <= i <= |TrimMargin(raw)| && HasPrefix(TrimMargin(raw)[i..], [LF] + DATA)
  }

  function TrimMargin(s: bytes): bytes
    decreases |s|
  {
    if s != [] && s[0] in [CR, LF, 9, 32] then TrimMargin(s[1..]) else s
  }

  /** All lines of a text, the unterminated one included. */
  method SplitAll(raw: bytes) returns (lines: seq<bytes>)
    ensures lines == Lines(raw) + [Rest(raw)]
  {
    lines := [];
    var left := raw;
    while IndexLF(left) >= 0
      invariant Lines(raw) == lines + Lines(left) && Rest(raw) == Rest(left)
      decreases |left|
    {
      var i := IndexLF(left);
      LineTaken(lines, left);
      lines := lines + [left[..i]];
      left := left[i + 1..];
    }
    LineTaken(lines, left);
    lines := lines + [left];
  }

  method DecodeAll(e: Env, raw: bytes) returns (objs: seq<Members>)
    ensures objs == Decode(e, raw)
  {
    var lines := SplitAll(raw);
    var payloads := Collect(Payload, lines);
    objs := Collect(p => Decoded(e, p), payloads);
  }

  function TotalOf(u: Option<TokenUsage>): TokenUsage {
    match u
    case Some(reported) => reported.WithTotal()
    case None => NO_USAGE
  }

  /** The answer to a client that did not ask for a stream: assembled when the upstream sent a
      stream, normalised when it sent one object. The recorded usage is the one a streaming
      client would have caused. */
  method CopyWhole(e: Env, raw: bytes) returns (client: bytes, usage: TokenUsage)
    ensures raw == [] ==> client == [] && usage == NO_USAGE
    ensures raw != [] && LooksLikeStream(raw) ==>
      && usage == RecordedUsage(e.codec, raw)
      && client == ApplyPolicy(e, e.codec.encode(Obj(Answer(Decode(e, raw), usage))))
    ensures raw != [] && !LooksLikeStream(raw) ==>
      && usage == TotalOf(ParseUsage(e.codec, raw))
      && client == Normalize(e, raw)
  {
    if |raw| == 0 {
      return [], NO_USAGE;
    }
    var streamed := LooksLikeStream(raw);
    if streamed {
      client, usage := CopyStreamed(e, raw);
    } else {
      client, usage := CopyPlain(e, raw);
    }
  }

  method CopyPlain(e: Env, raw: bytes) returns (client: bytes, usage: TokenUsage)
    ensures usage == TotalOf(ParseUsage(e.codec, raw)) && client == Normalize(e, raw)
  {
    var u := ParseUsage(e.codec, raw);
    usage := TotalOf(u);
    client := Normalize(e, raw);
  }

  method CopyStreamed(e: Env, raw: bytes) returns (client: bytes, usage: TokenUsage)
    ensures usage == RecordedUsage(e.codec, raw)
    ensures client == ApplyPolicy(e, e.codec.encode(Obj(Answer(Decode(e, raw), usage))))
  {
    usage := UsageOfWhole(e.codec, raw);
    client := AssembleStream(e, raw, usage);
  }

  method UsageOfWhole(c: Codec, raw: bytes) returns (usage: TokenUsage)
    ensures usage == RecordedUsage(c, raw)
  {
    var parser := new Parser(c);
    assert [] + raw == raw;
    parser.Write(raw);
    usage := parser.Result();
  }

  method AssembleStream(e: Env, raw: bytes, usage: TokenUsage) returns (client: bytes)
    ensures client == ApplyPolicy(e, e.codec.encode(Obj(Answer(Decode(e, raw), usage))))
  {
    var objs := DecodeAll(e, raw);
    var out := Assemble(objs, usage);
    client := ApplyPolicy(e, e.codec.encode(Obj(out)));
  }
}

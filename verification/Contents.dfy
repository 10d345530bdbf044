/** What an assembled answer says: every member of it, read off the chunks of the stream. */
module Contents {
  import opened Json
  import opened Usage
  import opened KeyedFold
  import opened Ordered
  import opened A = Assembly
  import opened Assembler
  import Seqs

  // ---------------------------------------------------------------- the last that was given

  /** The last text given that is not empty. */
  function LastText(xs: seq<Members>, say: Members -> string): string
    decreases |xs|
  {
    if xs == [] then ""
    else if say(xs[|xs| - 1]) != "" then say(xs[|xs| - 1])
    else LastText(xs[..|xs| - 1], say)
  }

  /** The last value given that is not null. */
  function LastValue(xs: seq<Members>, say: Members -> Value): Value
    decreases |xs|
  {
    if xs == [] then Null
    else if say(xs[|xs| - 1]) != Null then say(xs[|xs| - 1])
    else LastValue(xs[..|xs| - 1], say)
  }

  lemma LastTextSnoc(xs: seq<Members>, x: Members, say: Members -> string)
    ensures LastText(xs + [x], say) == NonEmpty(say(x), LastText(xs, say))
  {
    Seqs.FrontOfSnoc(xs, x);
  }

  lemma LastValueSnoc(xs: seq<Members>, x: Members, say: Members -> Value)
    ensures LastValue(xs + [x], say) == if say(x) != Null then say(x) else LastValue(xs, say)
  {
    Seqs.FrontOfSnoc(xs, x);
  }

  function TextAt(k: string): Members -> string {
    (m: Members) => A.Text(Get(m, k))
  }

  function ValueAt(k: string): Members -> Value {
    (m: Members) => Get(m, k)
  }

  /** A text under `k` in the delta of an entry. */
  function DeltaText(k: string): Members -> string {
    (entry: Members) => Piece(entry, k)
  }

  function Refusal(): Members -> Value {
    (entry: Members) => match DeltaOf(entry) case None => Null case Some(d) => Get(d, "refusal")
  }

  /** A text under `k` in the function of a tool-call item. */
  function FunctionText(k: string): Members -> string {
    (m: Members) => match AsMap(Get(m, "function")) case None => "" case Some(fn) => A.Text(Get(fn, k))
  }

  // ---------------------------------------------------------------- accumulators hold the last given

  ghost predicate Settled(c: Choice, own: seq<Members>) {
    && c.role == LastText(own, DeltaText("role"))
    && c.finish == LastText(own, TextAt("finish_reason"))
    && c.nativeFinish == LastText(own, TextAt("native_finish_reason"))
    && c.refusal == LastValue(own, Refusal())
  }

  lemma EntrySettles(c: Choice, entry: Members)
    ensures var c' := AddEntry(c, entry);
      && c'.role == NonEmpty(Piece(entry, "role"), c.role)
      && c'.finish == NonEmpty(A.Text(Get(entry, "finish_reason")), c.finish)
      && c'.nativeFinish == NonEmpty(A.Text(Get(entry, "native_finish_reason")), c.nativeFinish)
      && c'.refusal == if Refusal()(entry) != Null then Refusal()(entry) else c.refusal
  {
  }

  lemma SettledSnoc(c: Choice, own: seq<Members>, entry: Members)
    requires Settled(c, own)
    ensures Settled(AddEntry(c, entry), own + [entry])
  {
    EntrySettles(c, entry);
    LastTextSnoc(own, entry, DeltaText("role"));
    LastTextSnoc(own, entry, TextAt("finish_reason"));
    LastTextSnoc(own, entry, TextAt("native_finish_reason"));
    LastValueSnoc(own, entry, Refusal());
  }

  lemma {:induction false} ChoiceSettles(own: seq<Members>, n: nat)
    requires n <= |own|
    ensures Settled(AddAll(ChoiceFold(), EMPTY_CHOICE, own[..n]), own[..n])
  {
    if n > 0 {
      ChoiceSettles(own, n - 1);
      SettledSnoc(AddAll(ChoiceFold(), EMPTY_CHOICE, own[..n - 1]), own[..n - 1], own[n - 1]);
      AddAllSnoc(ChoiceFold(), EMPTY_CHOICE, own[..n - 1], own[n - 1]);
      Seqs.PrefixSnoc(own, n);
    }
  }

  ghost predicate ToolSettled(t: Tool, own: seq<Members>) {
    && t.id == LastText(own, TextAt("id"))
    && t.kind == LastText(own, TextAt("type"))
    && t.name == LastText(own, FunctionText("name"))
  }

  lemma ToolSettledSnoc(t: Tool, own: seq<Members>, m: Members)
    requires ToolSettled(t, own)
    ensures ToolSettled(AddTool(t, m), own + [m])
  {
    LastTextSnoc(own, m, TextAt("id"));
    LastTextSnoc(own, m, TextAt("type"));
    LastTextSnoc(own, m, FunctionText("name"));
  }

  lemma {:induction false} ToolSettles(own: seq<Members>, n: nat)
    requires n <= |own|
    ensures ToolSettled(AddAll(ToolFold(), EMPTY_TOOL, own[..n]), own[..n])
  {
    if n > 0 {
      ToolSettles(own, n - 1);
      ToolSettledSnoc(AddAll(ToolFold(), EMPTY_TOOL, own[..n - 1]), own[..n - 1], own[n - 1]);
      AddAllSnoc(ToolFold(), EMPTY_TOOL, own[..n - 1], own[n - 1]);
      Seqs.PrefixSnoc(own, n);
    }
  }

  /** The texts of reasoning details, in order. */
  function Texts(items: seq<Members>): string
    decreases |items|
  {
    if items == [] then "" else Texts(items[..|items| - 1]) + A.Text(Get(items[|items| - 1], "text"))
  }

  ghost predicate DetailSettled(d: Detail, own: seq<Members>) {
    && d.text == Texts(own)
    && (d.started <==> own != [])
    && (own != [] ==> forall k :: k in d.meta <==> k in {"type", "format", "index"} && k in own[0])
    && (own != [] ==> forall k :: k in d.meta ==> d.meta[k] == Get(own[0], k))
  }

  lemma DetailSettledSnoc(d: Detail, own: seq<Members>, m: Members)
    requires DetailSettled(d, own)
    ensures DetailSettled(AddDetail(d, m), own + [m])
  {
    Seqs.FrontOfSnoc(own, m);
    assert (own + [m])[0] == if own == [] then m else own[0];
  }

  lemma {:induction false} DetailSettles(own: seq<Members>, n: nat)
    requires n <= |own|
    ensures DetailSettled(AddAll(DetailFold(), EMPTY_DETAIL, own[..n]), own[..n])
  {
    if n > 0 {
      DetailSettles(own, n - 1);
      DetailSettledSnoc(AddAll(DetailFold(), EMPTY_DETAIL, own[..n - 1]), own[..n - 1], own[n - 1]);
      AddAllSnoc(DetailFold(), EMPTY_DETAIL, own[..n - 1], own[n - 1]);
      Seqs.PrefixSnoc(own, n);
    }
  }

  // ---------------------------------------------------------------- what a rendered choice says

  /** A member that is there exactly when there is a text to say. */
  predicate Optional(m: Members, k: string, text: string) {
    if text == "" then k !in m else k in m && m[k] == Str(text)
  }

  predicate OptionalValue(m: Members, k: string, v: Value) {
    if v == Null then k !in m else k in m && m[k] == v
  }

  ghost function Indices(items: seq<Members>): set<int> {
    set k | 0 <= k < |items| :: IndexOf(items[k])
  }

  ghost predicate ToolSays(v: Value, j: int, own: seq<Members>) {
    && v.Obj? && v.members.Keys <= {"index", "function", "id", "type"}
    && Get(v.members, "index") == Num(j as real)
    && Get(v.members, "function")
       == Obj(map["name" := Str(LastText(own, FunctionText("name"))), "arguments" := Str(Arguments(own))])
    && Optional(v.members, "id", LastText(own, TextAt("id")))
    && Optional(v.members, "type", LastText(own, TextAt("type")))
  }

  ghost predicate DetailSays(v: Value, own: seq<Members>) {
    && v.Obj? && own != [] && v.members.Keys <= {"text", "type", "format", "index"}
    && Get(v.members, "text") == Str(Texts(own))
    && forall k :: k in {"type", "format", "index"} ==>
         (k in v.members <==> k in own[0]) && Get(v.members, k) == Get(own[0], k)
  }

  /** One tool call for each index, ascending, each made of its own items; no member without any. */
  ghost predicate ToolsSay(m: Members, items: seq<Members>) {
    var ks := Listing(Indices(items));
    if items == [] then "tool_calls" !in m
    else
      && Get(m, "tool_calls").Arr? && |m["tool_calls"].items| == |ks|
      && forall n :: 0 <= n < |ks| ==> ToolSays(m["tool_calls"].items[n], ks[n], Own(ToolFold(), items, ks[n]))
  }

  ghost predicate DetailsSay(m: Members, items: seq<Members>) {
    var ks := Listing(Indices(items));
    if items == [] then "reasoning_details" !in m
    else
      && Get(m, "reasoning_details").Arr? && |m["reasoning_details"].items| == |ks|
      && forall n :: 0 <= n < |ks| ==> DetailSays(m["reasoning_details"].items[n], Own(DetailFold(), items, ks[n]))
  }

  ghost predicate MessageSays(m: Members, own: seq<Members>) {
    && m.Keys <= {"role", "content", "reasoning", "reasoning_details", "tool_calls", "refusal"}
    && TextsSay(m, own) && ToolsSay(m, AllToolItems(own)) && DetailsSay(m, AllDetailItems(own))
  }

  ghost predicate TextsSay(m: Members, own: seq<Members>) {
    && Get(m, "content") == Str(Contents(own))
    && Get(m, "role") == Str(if LastText(own, DeltaText("role")) != "" then LastText(own, DeltaText("role")) else "assistant")
    && Optional(m, "reasoning", Reasonings(own))
    && OptionalValue(m, "refusal", LastValue(own, Refusal()))
  }

  ghost predicate ChoiceSays(v: Value, i: int, own: seq<Members>) {
    && v.Obj? && FrameSays(v.members, i, own)
    && Get(v.members, "message").Obj? && MessageSays(Get(v.members, "message").members, own)
  }

  ghost predicate FrameSays(m: Members, i: int, own: seq<Members>) {
    && m.Keys <= {"index", "message", "finish_reason", "native_finish_reason"}
    && Get(m, "index") == Num(i as real)
    && Optional(m, "finish_reason", LastText(own, TextAt("finish_reason")))
    && Optional(m, "native_finish_reason", LastText(own, TextAt("native_finish_reason")))
  }

  lemma {:induction false} OwnOfIndex<A'>(f: Fold<Members, A'>, items: seq<Members>, j: int)
    requires f.key == IndexOf
    ensures Own(f, items, j) != [] <==> j in Indices(items)
    decreases |items|
  {
    if items != [] {
      var front, last := items[..|items| - 1], items[|items| - 1];
      OwnOfIndex(f, front, j);
      IndicesSnoc(front, last);
      assert items == front + [last];
    }
  }

  lemma IndicesSnoc(items: seq<Members>, m: Members)
    ensures Indices(items + [m]) == Indices(items) + {IndexOf(m)}
  {
    var all := items + [m];
    assert all[|items|] == m && forall k :: 0 <= k < |items| ==> all[k] == items[k];
    forall i | i in Indices(items) ensures i in Indices(all) {
      var k :| 0 <= k < |items| && IndexOf(items[k]) == i;
      assert IndexOf(all[k]) == i;
    }
    assert IndexOf(all[|items|]) in Indices(all);
  }

  /** A fold by index has one accumulator for each index, the fold of that index's own items. */
  lemma FoldedByIndex<A'>(f: Fold<Members, A'>, items: seq<Members>)
    requires f.key == IndexOf
    ensures PutAll(f, map[], items).Keys == Indices(items)
    ensures forall j :: j in Indices(items) ==>
      j in PutAll(f, map[], items) && PutAll(f, map[], items)[j] == AddAll(f, f.empty, Own(f, items, j))
  {
    forall j ensures j in PutAll(f, map[], items) <==> j in Indices(items) {
      KeysAreIndependent(f, map[], items, j);
      OwnOfIndex(f, items, j);
    }
    forall j | j in Indices(items) ensures PutAll(f, map[], items)[j] == AddAll(f, f.empty, Own(f, items, j)) {
      KeysAreIndependent(f, map[], items, j);
    }
  }

  lemma ToolObjectSays(j: int, own: seq<Members>)
    ensures ToolSays(ToolObject(j, AddAll(ToolFold(), EMPTY_TOOL, own)), j, own)
  {
    ToolSettles(own, |own|);
    assert own[..|own|] == own;
    ToolArguments(own);
  }

  lemma DetailObjectSays(own: seq<Members>)
    requires own != []
    ensures DetailSays(DetailObject(AddAll(DetailFold(), EMPTY_DETAIL, own)), own)
  {
    DetailSettles(own, |own|);
    assert own[..|own|] == own;
  }

  lemma ToolsRendered(items: seq<Members>)
    ensures var tools, ks := PutAll(ToolFold(), map[], items), Listing(Indices(items));
      && tools.Keys == Indices(items)
      && forall n :: 0 <= n < |ks| ==>
           ks[n] in tools && ToolSays(ToolObject(ks[n], tools[ks[n]]), ks[n], Own(ToolFold(), items, ks[n]))
  {
    FoldedByIndex(ToolFold(), items);
    var ks := Listing(Indices(items));
    forall n | 0 <= n < |ks|
      ensures ToolSays(ToolObject(ks[n], PutAll(ToolFold(), map[], items)[ks[n]]), ks[n], Own(ToolFold(), items, ks[n]))
    {
      ToolObjectSays(ks[n], Own(ToolFold(), items, ks[n]));
    }
  }

  lemma DetailsRendered(items: seq<Members>)
    ensures var details, ks := PutAll(DetailFold(), map[], items), Listing(Indices(items));
      && details.Keys == Indices(items)
      && forall n :: 0 <= n < |ks| ==>
           ks[n] in details && DetailSays(DetailObject(details[ks[n]]), Own(DetailFold(), items, ks[n]))
  {
    FoldedByIndex(DetailFold(), items);
    var ks := Listing(Indices(items));
    forall n | 0 <= n < |ks|
      ensures DetailSays(DetailObject(PutAll(DetailFold(), map[], items)[ks[n]]), Own(DetailFold(), items, ks[n]))
    {
      OwnOfIndex(DetailFold(), items, ks[n]);
      DetailObjectSays(Own(DetailFold(), items, ks[n]));
    }
  }

  /** Something is listed exactly when there is an item. */
  lemma ListingOfIndices(items: seq<Members>)
    ensures Listing(Indices(items)) == [] <==> items == []
  {
    if items != [] {
      assert IndexOf(items[0]) in Indices(items);
      assert IndexOf(items[0]) in Listing(Indices(items));
    } else {
      assert Indices(items) == {};
      ListsSize(Listing({}), {});
    }
  }

  lemma MessageMembers(c: Choice, details: seq<Value>, tools: seq<Value>)
    ensures var m := MessageObject(c, details, tools);
      && m.Keys <= {"role", "content", "reasoning", "reasoning_details", "tool_calls", "refusal"}
      && Get(m, "content") == Str(c.content)
      && Get(m, "role") == Str(if c.role == "" then "assistant" else c.role)
      && Optional(m, "reasoning", c.reasoning)
      && OptionalValue(m, "refusal", c.refusal)
      && (if tools == [] then "tool_calls" !in m else Get(m, "tool_calls") == Arr(tools))
      && (if details == [] then "reasoning_details" !in m else Get(m, "reasoning_details") == Arr(details))
  {
  }

  lemma TextsRendered(c: Choice, own: seq<Members>, details: seq<Value>, tools: seq<Value>)
    requires Settled(c, own) && c.content == Contents(own) && c.reasoning == Reasonings(own)
    ensures TextsSay(MessageObject(c, details, tools), own)
  {
    MessageMembers(c, details, tools);
  }

  lemma ToolsListed(m: Members, items: seq<Members>, tools: map<int, Tool>)
    requires tools == PutAll(ToolFold(), map[], items)
    requires var list := ToolList(tools, Listing(tools.Keys));
      if list == [] then "tool_calls" !in m else Get(m, "tool_calls") == Arr(list)
    ensures ToolsSay(m, items)
  {
    ToolsRendered(items);
    ListingOfIndices(items);
  }

  lemma DetailsListed(m: Members, items: seq<Members>, details: map<int, Detail>)
    requires details == PutAll(DetailFold(), map[], items)
    requires var list := DetailList(details, Listing(details.Keys));
      if list == [] then "reasoning_details" !in m else Get(m, "reasoning_details") == Arr(list)
    ensures DetailsSay(m, items)
  {
    DetailsRendered(items);
    ListingOfIndices(items);
  }

  /** A choice that has accumulated the entries. */
  ghost predicate Gathers(c: Choice, own: seq<Members>) {
    && Settled(c, own) && c.content == Contents(own) && c.reasoning == Reasonings(own)
    && c.tools == PutAll(ToolFold(), map[], AllToolItems(own))
    && c.details == PutAll(DetailFold(), map[], AllDetailItems(own))
  }

  lemma FoldGathers(own: seq<Members>)
    ensures Gathers(AddAll(ChoiceFold(), EMPTY_CHOICE, own), own)
  {
    FoldedTexts(own);
    FoldedParts(own);
    ChoiceSettles(own, |own|);
    assert own[..|own|] == own;
  }

  lemma MessageRendered(c: Choice, own: seq<Members>)
    requires Gathers(c, own)
    ensures MessageSays(
      MessageObject(c, DetailList(c.details, Listing(c.details.Keys)), ToolList(c.tools, Listing(c.tools.Keys))), own)
  {
    var details, tools := DetailList(c.details, Listing(c.details.Keys)), ToolList(c.tools, Listing(c.tools.Keys));
    MessageMembers(c, details, tools);
    TextsRendered(c, own, details, tools);
    ToolsListed(MessageObject(c, details, tools), AllToolItems(own), c.tools);
    DetailsListed(MessageObject(c, details, tools), AllDetailItems(own), c.details);
  }

  lemma FrameRendered(i: int, c: Choice, own: seq<Members>, details: seq<Value>, tools: seq<Value>)
    requires Settled(c, own)
    ensures var v := ChoiceObject(i, c, details, tools);
      v.Obj? && FrameSays(v.members, i, own) && Get(v.members, "message") == Obj(MessageObject(c, details, tools))
  {
  }

  lemma ChoiceRendered(i: int, c: Choice, own: seq<Members>)
    requires Gathers(c, own)
    ensures ChoiceSays(Rendered(i, c), i, own)
  {
    MessageRendered(c, own);
    FrameRendered(i, c, own, DetailList(c.details, Listing(c.details.Keys)), ToolList(c.tools, Listing(c.tools.Keys)));
  }

  // ---------------------------------------------------------------- what the whole answer says

  /** A complete answer, as against a chunk of one. */
  predicate Complete(o: Members) {
    Get(o, "object") == Str("chat.completion")
  }

  lemma CompleteIsWhole(o: Members)
    ensures Complete(o) <==> IsWhole(o)
  {
  }

  lemma NoneIsWhole(objs: seq<Members>, n: nat)
    requires n <= |objs| && forall i :: 0 <= i < n ==> !Complete(objs[i])
    ensures forall i :: 0 <= i < n ==> !IsWhole(objs[i])
  {
    forall i | 0 <= i < n ensures !IsWhole(objs[i]) {
      CompleteIsWhole(objs[i]);
    }
  }

  /** Without a whole completion the answer lists one choice for each index, ascending; each says
      what the entries of its own index said. */
  lemma AnswerSays(objs: seq<Members>, u: TokenUsage)
    requires forall i :: 0 <= i < |objs| ==> !Complete(objs[i])
    ensures var entries := AllEntries(objs);
      var ks, choices := Listing(Indices(entries)), Get(Answer(objs, u), "choices");
      && choices.Arr? && |choices.items| == |ks|
      && forall n :: 0 <= n < |ks| ==> ChoiceSays(choices.items[n], ks[n], Own(ChoiceFold(), entries, ks[n]))
  {
    NoneIsWhole(objs, |objs|);
    AnswerChoices(objs, u);
    var entries := AllEntries(objs);
    FoldedByIndex(ChoiceFold(), entries);
    var ks := Listing(Indices(entries));
    forall n | 0 <= n < |ks|
      ensures ChoiceSays(Answer(objs, u)["choices"].items[n], ks[n], Own(ChoiceFold(), entries, ks[n]))
    {
      var own := Own(ChoiceFold(), entries, ks[n]);
      FoldGathers(own);
      ChoiceRendered(ks[n], AddAll(ChoiceFold(), EMPTY_CHOICE, own), own);
    }
  }

  /** The three counts of a usage object; a missing total is input plus output. */
  ghost predicate CountsOf(v: Value, u: TokenUsage) {
    v == Obj(map["prompt_tokens" := Num(u.input as real), "completion_tokens" := Num(u.output as real),
                 "total_tokens" := Num((if u.total <= 0 then u.input + u.output else u.total) as real)])
  }

  /** Usage is what the stream last said, or else what was recorded. */
  ghost predicate UsageSays(out: Members, last: Value, u: TokenUsage) {
    if last != Null then Get(out, "usage") == last
    else if u.Empty() then "usage" !in out
    else CountsOf(Get(out, "usage"), u)
  }

  /** The value under `k` in the last object that has one. */
  function LastUnder(objs: seq<Members>, k: string): Option<Value>
    decreases |objs|
  {
    if objs == [] then None
    else if k in objs[|objs| - 1] then Some(objs[|objs| - 1][k])
    else LastUnder(objs[..|objs| - 1], k)
  }

  ghost predicate MetaSays(m: Members, objs: seq<Members>) {
    && m.Keys <= {"id", "created", "model", "system_fingerprint", "service_tier"}
    && Optional(m, "id", LastText(objs, TextAt("id")))
    && Optional(m, "model", LastText(objs, TextAt("model")))
    && OptionalValue(m, "system_fingerprint", LastValue(objs, ValueAt("system_fingerprint")))
    && OptionalValue(m, "service_tier", LastValue(objs, ValueAt("service_tier")))
    && (if "created" in m then LastUnder(objs, "created") == Some(m["created"]) else LastUnder(objs, "created") == None)
  }

  lemma AddMetaSays(m: Members, o: Members, k: string)
    ensures AddMeta(m, o).Keys <= m.Keys + {"id", "created", "model", "system_fingerprint", "service_tier"}
    ensures k in {"id", "model"} ==> Get(AddMeta(m, o), k) == if A.Text(Get(o, k)) != "" then Get(o, k) else Get(m, k)
    ensures k in {"id", "model"} ==> (k in AddMeta(m, o) <==> k in m || A.Text(Get(o, k)) != "")
    ensures k in {"system_fingerprint", "service_tier"} ==>
      (k in AddMeta(m, o) <==> k in m || Get(o, k) != Null)
      && Get(AddMeta(m, o), k) == if Get(o, k) != Null then Get(o, k) else Get(m, k)
    ensures k == "created" ==>
      (k in AddMeta(m, o) <==> k in m || k in o) && Get(AddMeta(m, o), k) == if k in o then o[k] else Get(m, k)
  {
  }

  lemma {:induction false} MetaIsSaid(objs: seq<Members>, n: nat)
    requires n <= |objs|
    ensures MetaSays(Meta(objs[..n]), objs[..n])
  {
    if n > 0 {
      MetaIsSaid(objs, n - 1);
      MetaSnoc(objs[..n - 1], objs[n - 1]);
      Seqs.PrefixSnoc(objs, n);
    }
  }

  lemma TextNext(m: Members, o: Members, objs: seq<Members>, k: string)
    requires k in {"id", "model"} && Optional(m, k, LastText(objs, TextAt(k)))
    ensures Optional(AddMeta(m, o), k, LastText(objs + [o], TextAt(k)))
  {
    LastTextSnoc(objs, o, TextAt(k));
    AddMetaSays(m, o, k);
  }

  lemma ValueNext(m: Members, o: Members, objs: seq<Members>, k: string)
    requires k in {"system_fingerprint", "service_tier"} && OptionalValue(m, k, LastValue(objs, ValueAt(k)))
    ensures OptionalValue(AddMeta(m, o), k, LastValue(objs + [o], ValueAt(k)))
  {
    LastValueSnoc(objs, o, ValueAt(k));
    AddMetaSays(m, o, k);
  }

  lemma CreatedNext(m: Members, o: Members, objs: seq<Members>)
    requires if "created" in m then LastUnder(objs, "created") == Some(m["created"]) else LastUnder(objs, "created") == None
    ensures var m' := AddMeta(m, o);
      if "created" in m' then LastUnder(objs + [o], "created") == Some(m'["created"])
      else LastUnder(objs + [o], "created") == None
  {
    Seqs.FrontOfSnoc(objs, o);
    AddMetaSays(m, o, "created");
  }

  lemma MetaSnoc(objs: seq<Members>, o: Members)
    requires MetaSays(Meta(objs), objs)
    ensures MetaSays(Meta(objs + [o]), objs + [o])
  {
    Seqs.FrontOfSnoc(objs, o);
    var m := Meta(objs);
    TextNext(m, o, objs, "id");
    TextNext(m, o, objs, "model");
    ValueNext(m, o, objs, "system_fingerprint");
    ValueNext(m, o, objs, "service_tier");
    CreatedNext(m, o, objs);
    AddMetaSays(m, o, "created");
  }

  lemma {:induction false} LastUsageIs(objs: seq<Members>)
    ensures LastUsage(objs) == LastValue(objs, ValueAt("usage"))
    decreases |objs|
  {
    if objs != [] {
      LastUsageIs(objs[..|objs| - 1]);
    }
  }

  lemma AssembledHeader(g: Gathered, objs: seq<Members>, u: TokenUsage)
    requires MetaSays(g.meta, objs)
    ensures var out := Assembled(g, u);
      && Get(out, "object") == Str("chat.completion") && "choices" in out
      && MetaSays(out - {"object", "choices", "usage"}, objs) && UsageSays(out, g.last, u)
  {
    EnvelopeSays(g.meta, g.last, u, RenderedAll(g.acc));
  }

  /** Around the choices the answer holds what the stream last said of each header member, the usage,
      and nothing else. */
  lemma AnswerHeader(objs: seq<Members>, u: TokenUsage)
    requires forall i :: 0 <= i < |objs| ==> !Complete(objs[i])
    ensures var out := Answer(objs, u);
      && Get(out, "object") == Str("chat.completion") && "choices" in out
      && MetaSays(out - {"object", "choices", "usage"}, objs)
      && UsageSays(out, LastValue(objs, ValueAt("usage")), u)
  {
    MetaIsSaid(objs, |objs|);
    assert objs[..|objs|] == objs;
    LastUsageIs(objs);
    NoneIsWhole(objs, |objs|);
    AnswerIsAssembled(objs, u);
    AssembledHeader(Gather(objs), objs, u);
  }

  lemma UsageObjectCounts(u: TokenUsage)
    ensures CountsOf(UsageObject(u), u)
  {
  }

  lemma EnvelopeAt(meta: Members, last: Value, u: TokenUsage, choices: seq<Value>, k: string)
    requires k !in {"object", "choices", "usage"}
    ensures var out := Envelope(meta, last, u, choices);
      (k in out <==> k in meta) && (k in meta ==> out[k] == meta[k])
  {
  }

  lemma EnvelopeUsage(meta: Members, last: Value, u: TokenUsage, choices: seq<Value>)
    requires "usage" !in meta
    ensures UsageSays(Envelope(meta, last, u, choices), last, u)
  {
    UsageObjectCounts(u);
  }

  lemma EnvelopeSays(meta: Members, last: Value, u: TokenUsage, choices: seq<Value>)
    requires "object" !in meta && "choices" !in meta && "usage" !in meta
    ensures var out := Envelope(meta, last, u, choices);
      && Get(out, "object") == Str("chat.completion") && "choices" in out
      && out - {"object", "choices", "usage"} == meta && UsageSays(out, last, u)
  {
    EnvelopeUsage(meta, last, u, choices);
    var rest := Envelope(meta, last, u, choices) - {"object", "choices", "usage"};
    forall k ensures (k in rest <==> k in meta) && (k in meta ==> rest[k] == meta[k]) {
      if k !in {"object", "choices", "usage"} {
        EnvelopeAt(meta, last, u, choices, k);
      }
    }
    assert rest == meta;
  }

  /** With a whole completion in the stream the first one is the answer. Only when it has no usage
      member, and nothing before it had usage, or its usage is null, is recorded usage filled in. */
  lemma WholeAnswerSays(objs: seq<Members>, u: TokenUsage, n: nat)
    requires n < |objs| && Complete(objs[n]) && forall i :: 0 <= i < n ==> !Complete(objs[i])
    ensures var o, out := objs[n], Answer(objs, u);
      var silent := if "usage" in o then o["usage"] == Null else LastValue(objs[..n], ValueAt("usage")) == Null;
      if silent && !u.Empty() then out - {"usage"} == o - {"usage"} && CountsOf(Get(out, "usage"), u)
      else out == o
  {
    NoneIsWhole(objs, n);
    CompleteIsWhole(objs[n]);
    FirstWholeIs(objs, 0, n);
    LastUsageIs(objs[..n]);
  }
}

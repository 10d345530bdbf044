/** Turning a stream of completion chunks into one completion object: each chunk carries
    choice entries, and every entry is added to the accumulator of its own index. */
module Assembly {
  import Seqs
  import opened Json
  import opened KeyedFold

  type Members = map<string, Value>

  function Text(v: Value): string {
    if v.Str? then v.s else ""
  }

  function NonEmpty(new_: string, old_: string): string {
    if new_ != "" then new_ else old_
  }

  function Items(v: Value): seq<Value> {
    if v.Arr? then v.items else []
  }

  /** The items that are objects, in order. */
  function Objects(items: seq<Value>): seq<Members>
    decreases |items|
  {
    if items == [] then []
    else
      var last := items[|items| - 1];
      Objects(items[..|items| - 1]) + if last.Obj? then [last.members] else []
  }

  function IndexOf(m: Members): int {
    AsInt(Get(m, "index"))
  }

  // ---------------------------------------------------------------- accumulators

  datatype Detail = Detail(started: bool, meta: Members, text: string)

  datatype Tool = Tool(id: string, kind: string, name: string, args: string)

  datatype Choice = Choice(
    role: string,
    content: string,
    reasoning: string,
    details: map<int, Detail>,
    tools: map<int, Tool>,
    finish: string,
    nativeFinish: string,
    refusal: Value)

  const EMPTY_DETAIL := Detail(false, map[], "")
  const EMPTY_TOOL := Tool("", "", "", "")
  const EMPTY_CHOICE := Choice("", "", "", map[], map[], "", "", Null)

  /** The first item seen for an index fixes its type, format and index members. */
  function DetailMeta(m: Members): Members {
    map k | k in {"type", "format", "index"} && k in m :: m[k]
  }

  function AddDetail(d: Detail, m: Members): Detail {
    Detail(true, if d.started then d.meta else DetailMeta(m), d.text + Text(Get(m, "text")))
  }

  function AddTool(t: Tool, m: Members): Tool {
    var t' := t.(id := NonEmpty(Text(Get(m, "id")), t.id), kind := NonEmpty(Text(Get(m, "type")), t.kind));
    match AsMap(Get(m, "function"))
    case None => t'
    case Some(fn) => t'.(name := NonEmpty(Text(Get(fn, "name")), t.name), args := t.args + Text(Get(fn, "arguments")))
  }

  function DetailFold(): Fold<Members, Detail> {
    Fold(IndexOf, AddDetail, EMPTY_DETAIL)
  }

  function ToolFold(): Fold<Members, Tool> {
    Fold(IndexOf, AddTool, EMPTY_TOOL)
  }

  /** The delta of an entry, or its message when it has no delta. */
  function DeltaOf(entry: Members): Option<Members> {
    if Get(entry, "delta").Obj? then Some(Get(entry, "delta").members)
    else AsMap(Get(entry, "message"))
  }

  function DetailItems(d: Members): seq<Members> {
    Objects(Items(Get(d, "reasoning_details")))
  }

  function ToolItems(d: Members): seq<Members> {
    Objects(Items(Get(d, "tool_calls")))
  }

  function AddDelta(c: Choice, d: Members): Choice {
    Choice(
      NonEmpty(Text(Get(d, "role")), c.role),
      c.content + Text(Get(d, "content")),
      c.reasoning + Text(Get(d, "reasoning")) + Text(Get(d, "reasoning_content")),
      PutAll(DetailFold(), c.details, DetailItems(d)),
      PutAll(ToolFold(), c.tools, ToolItems(d)),
      c.finish,
      c.nativeFinish,
      if Get(d, "refusal") != Null then Get(d, "refusal") else c.refusal)
  }

  function AddEntry(c: Choice, entry: Members): Choice {
    var c' := c.(finish := NonEmpty(Text(Get(entry, "finish_reason")), c.finish),
                 nativeFinish := NonEmpty(Text(Get(entry, "native_finish_reason")), c.nativeFinish));
    match DeltaOf(entry)
    case None => c'
    case Some(d) => AddDelta(c', d)
  }

  function ChoiceFold(): Fold<Members, Choice> {
    Fold(IndexOf, AddEntry, EMPTY_CHOICE)
  }

  function EntriesOf(chunk: Members): seq<Members> {
    Objects(Items(Get(chunk, "choices")))
  }

  /** All choice entries of a sequence of chunks, in order. */
  function AllEntries(chunks: seq<Members>): seq<Members> {
    Flat(EntriesOf, chunks)
  }

  /** The accumulated choices of a sequence of chunks. */
  function Choices(chunks: seq<Members>): map<int, Choice> {
    PutAll(ChoiceFold(), map[], AllEntries(chunks))
  }

  // ---------------------------------------------------------------- choices are independent

  /** The choice of an index exists exactly when the index occurs, and it is the fold of that
      index's own entries, in order, whatever the other indices carry. */
  lemma ChoicesAreIndependent(chunks: seq<Members>, i: int)
    ensures var acc, own := Choices(chunks), Own(ChoiceFold(), AllEntries(chunks), i);
      && (i in acc <==> own != [])
      && (i in acc ==> acc[i] == AddAll(ChoiceFold(), EMPTY_CHOICE, own))
  {
    KeysAreIndependent(ChoiceFold(), map[], AllEntries(chunks), i);
  }

  /** Adjacent chunks without a common choice index can be swapped. */
  lemma SwapDisjointChunks(before: seq<Members>, x: Members, y: Members, after: seq<Members>)
    requires forall i :: Own(ChoiceFold(), EntriesOf(x), i) == [] || Own(ChoiceFold(), EntriesOf(y), i) == []
    ensures Choices(before + [x, y] + after) == Choices(before + [y, x] + after)
  {
    FlatAroundTwo(EntriesOf, before, x, y, after);
    FlatAroundTwo(EntriesOf, before, y, x, after);
    SwapDisjoint(ChoiceFold(), AllEntries(before), EntriesOf(x), EntriesOf(y), AllEntries(after));
  }

  // ---------------------------------------------------------------- what a choice holds

  function Piece(entry: Members, k: string): string {
    match DeltaOf(entry) case None => "" case Some(d) => Text(Get(d, k))
  }

  function Contents(entries: seq<Members>): string
    decreases |entries|
  {
    if entries == [] then ""
    else Contents(entries[..|entries| - 1]) + Piece(entries[|entries| - 1], "content")
  }

  function Reasonings(entries: seq<Members>): string
    decreases |entries|
  {
    if entries == [] then ""
    else
      var last := entries[|entries| - 1];
      Reasonings(entries[..|entries| - 1]) + Piece(last, "reasoning") + Piece(last, "reasoning_content")
  }

  /** All tool-call items of a sequence of entries, in order. */
  function AllToolItems(entries: seq<Members>): seq<Members>
    decreases |entries|
  {
    if entries == [] then []
    else
      AllToolItems(entries[..|entries| - 1])
      + match DeltaOf(entries[|entries| - 1]) case None => [] case Some(d) => ToolItems(d)
  }

  function AllDetailItems(entries: seq<Members>): seq<Members>
    decreases |entries|
  {
    if entries == [] then []
    else
      AllDetailItems(entries[..|entries| - 1])
      + match DeltaOf(entries[|entries| - 1]) case None => [] case Some(d) => DetailItems(d)
  }

  /** Content and reasoning are the in-order concatenation of the entries' own pieces. */
  lemma {:induction false} FoldedTexts(entries: seq<Members>)
    ensures AddAll(ChoiceFold(), EMPTY_CHOICE, entries).content == Contents(entries)
    ensures AddAll(ChoiceFold(), EMPTY_CHOICE, entries).reasoning == Reasonings(entries)
    decreases |entries|
  {
    if entries != [] {
      FoldedTexts(entries[..|entries| - 1]);
      var c := AddAll(ChoiceFold(), EMPTY_CHOICE, entries[..|entries| - 1]);
      assert c.content + "" == c.content && c.reasoning + "" + "" == c.reasoning;
    }
  }

  /** Tool calls and reasoning details are themselves accumulated per index, over all items of
      the choice, across chunk borders. */
  lemma {:induction false} FoldedParts(entries: seq<Members>)
    ensures AddAll(ChoiceFold(), EMPTY_CHOICE, entries).tools == PutAll(ToolFold(), map[], AllToolItems(entries))
    ensures AddAll(ChoiceFold(), EMPTY_CHOICE, entries).details == PutAll(DetailFold(), map[], AllDetailItems(entries))
    decreases |entries|
  {
    if entries != [] {
      var before, last := entries[..|entries| - 1], entries[|entries| - 1];
      FoldedParts(before);
      match DeltaOf(last)
      case None =>
        assert AllToolItems(before) + [] == AllToolItems(before);
        assert AllDetailItems(before) + [] == AllDetailItems(before);
      case Some(d) =>
        PutAllConcat(ToolFold(), map[], AllToolItems(before), ToolItems(d));
        PutAllConcat(DetailFold(), map[], AllDetailItems(before), DetailItems(d));
    }
  }

  function Arguments(items: seq<Members>): string
    decreases |items|
  {
    if items == [] then ""
    else
      Arguments(items[..|items| - 1])
      + match AsMap(Get(items[|items| - 1], "function")) case None => "" case Some(fn) => Text(Get(fn, "arguments"))
  }

  lemma {:induction false} ToolArguments(items: seq<Members>)
    ensures AddAll(ToolFold(), EMPTY_TOOL, items).args == Arguments(items)
    decreases |items|
  {
    if items != [] {
      ToolArguments(items[..|items| - 1]);
      var t := AddAll(ToolFold(), EMPTY_TOOL, items[..|items| - 1]);
      assert t.args + "" == t.args;
    }
  }

  /** The arguments of tool call `j` of a choice are the in-order concatenation of the pieces
      addressed to `j`, wherever the stream put them. */
  lemma ArgumentsOfTool(entries: seq<Members>, j: int)
    ensures var tools, own := AddAll(ChoiceFold(), EMPTY_CHOICE, entries).tools, Own(ToolFold(), AllToolItems(entries), j);
      (j in tools <==> own != []) && (j in tools ==> tools[j].args == Arguments(own))
  {
    FoldedParts(entries);
    KeysAreIndependent(ToolFold(), map[], AllToolItems(entries), j);
    ToolArguments(Own(ToolFold(), AllToolItems(entries), j));
  }

  // ---------------------------------------------------------------- splitting a content delta

  /** An entry that carries a piece of content for one index and nothing else. */
  function ContentEntry(index: Value, content: string): Members {
    map["index" := index, "delta" := Obj(map["content" := Str(content)])]
  }

  /** The entry with other content in its delta, or in its message when that stands for the delta. */
  function WithContent(entry: Members, content: string): Members
    requires DeltaOf(entry).Some?
  {
    var d := DeltaOf(entry).value;
    entry[(if Get(entry, "delta").Obj? then "delta" else "message") := Obj(d["content" := Str(content)])]
  }

  /** The chunk with another entry at one position of its choices. */
  function WithEntry(chunk: Members, p: nat, entry: Members): Members
    requires p < |Items(Get(chunk, "choices"))|
  {
    chunk["choices" := Arr(Items(Get(chunk, "choices"))[p := Obj(entry)])]
  }

  /** The entry at a position of a chunk carries `content`, and no later entry of the chunk
      belongs to the same choice. */
  predicate Carries(chunk: Members, p: nat, entry: Members, content: string) {
    var items := Items(Get(chunk, "choices"));
    && p < |items| && items[p] == Obj(entry)
    && DeltaOf(entry).Some? && Get(DeltaOf(entry).value, "content") == Str(content)
    && forall q :: p < q < |items| && items[q].Obj? ==> IndexOf(items[q].members) != IndexOf(entry)
  }

  lemma ContentEntryAdds(c: Choice, index: Value, content: string)
    ensures AddEntry(c, ContentEntry(index, content)) == c.(content := c.content + content)
  {
  }

  lemma WithContentAdds(c: Choice, entry: Members, content: string)
    requires DeltaOf(entry).Some?
    ensures AddEntry(c, WithContent(entry, content)) ==
            AddEntry(c, entry).(content := c.content + content)
    ensures AddEntry(c, entry).content == c.content + Text(Get(DeltaOf(entry).value, "content"))
  {
    var d := DeltaOf(entry).value;
    WithContentKeeps(entry, content);
    DeltaAdds(c.(finish := NonEmpty(Text(Get(entry, "finish_reason")), c.finish),
                 nativeFinish := NonEmpty(Text(Get(entry, "native_finish_reason")), c.nativeFinish)), d, content);
  }

  lemma WithContentKeeps(entry: Members, content: string)
    requires DeltaOf(entry).Some?
    ensures DeltaOf(WithContent(entry, content)) == Some(DeltaOf(entry).value["content" := Str(content)])
    ensures forall k :: k in {"index", "finish_reason", "native_finish_reason"} ==>
      Get(WithContent(entry, content), k) == Get(entry, k)
    ensures IndexOf(WithContent(entry, content)) == IndexOf(entry)
  {
  }

  lemma DeltaAdds(c: Choice, d: Members, content: string)
    ensures AddDelta(c, d["content" := Str(content)]) == AddDelta(c, d).(content := c.content + content)
  {
    var d' := d["content" := Str(content)];
    assert DetailItems(d') == DetailItems(d) && ToolItems(d') == ToolItems(d);
  }

  /** Whatever else an entry carries, its content can be added in two pieces. */
  lemma SplitContentAdds(c: Choice, entry: Members, x: string, y: string)
    requires DeltaOf(entry).Some? && Get(DeltaOf(entry).value, "content") == Str(x + y)
    ensures AddEntry(AddEntry(c, WithContent(entry, x)), ContentEntry(Get(entry, "index"), y)) == AddEntry(c, entry)
  {
    WithContentAdds(c, entry, x);
    ContentEntryAdds(AddEntry(c, WithContent(entry, x)), Get(entry, "index"), y);
    InTwoPieces(AddEntry(c, entry), c.content, x, y);
  }

  lemma InTwoPieces(c: Choice, content: string, x: string, y: string)
    requires c.content == content + (x + y)
    ensures var once := c.(content := content + x);
      once.(content := once.content + y) == c
  {
    Seqs.Assoc(content, x, y);
  }

  lemma {:induction false} ObjectsConcat(a: seq<Value>, b: seq<Value>)
    ensures Objects(a + b) == Objects(a) + Objects(b)
    decreases |b|
  {
    if b == [] {
      assert a + b == a && Objects(a) + [] == Objects(a);
    } else {
      var last := b[|b| - 1];
      assert (a + b)[..|a + b| - 1] == a + b[..|b| - 1];
      ObjectsConcat(a, b[..|b| - 1]);
      Seqs.Assoc(Objects(a), Objects(b[..|b| - 1]), if last.Obj? then [last.members] else []);
    }
  }

  /** Exactly the objects among the items count, in order. */
  lemma ObjectsAround(a: seq<Value>, v: Value, b: seq<Value>)
    ensures Objects(a + [v] + b) == Objects(a) + (if v.Obj? then [v.members] else []) + Objects(b)
  {
    ObjectsConcat(a + [v], b);
    ObjectsConcat(a, [v]);
    assert [v][..0] == [];
  }

  lemma {:induction false} NoneOfIndex(items: seq<Value>, i: int)
    requires forall q :: 0 <= q < |items| && items[q].Obj? ==> IndexOf(items[q].members) != i
    ensures Own(ChoiceFold(), Objects(items), i) == []
    decreases |items|
  {
    if items != [] {
      var front, last := items[..|items| - 1], items[|items| - 1];
      NoneOfIndex(front, i);
      if last.Obj? {
        assert (Objects(front) + [last.members])[..|Objects(front)|] == Objects(front);
      } else {
        assert Objects(front) + [] == Objects(front);
      }
    }
  }

  lemma EntriesAround(items: seq<Value>, p: nat, entry: Members)
    requires p < |items|
    ensures Objects(items[p := Obj(entry)]) == Objects(items[..p]) + [entry] + Objects(items[p + 1..])
  {
    assert items[p := Obj(entry)] == items[..p] + [Obj(entry)] + items[p + 1..];
    ObjectsAround(items[..p], Obj(entry), items[p + 1..]);
  }

  lemma EntriesAroundCut(chunk: Members, p: nat, entry: Members, x: string, content: string)
    requires Carries(chunk, p, entry, content)
    ensures var items := Items(Get(chunk, "choices"));
      && EntriesOf(chunk) == Objects(items[..p]) + [entry] + Objects(items[p + 1..])
      && EntriesOf(WithEntry(chunk, p, WithContent(entry, x)))
         == Objects(items[..p]) + [WithContent(entry, x)] + Objects(items[p + 1..])
      && Own(ChoiceFold(), Objects(items[p + 1..]), IndexOf(entry)) == []
  {
    var items := Items(Get(chunk, "choices"));
    assert items[p := Obj(entry)] == items;
    EntriesAround(items, p, entry);
    EntriesAround(items, p, WithContent(entry, x));
    NoneOfIndex(items[p + 1..], IndexOf(entry));
  }

  lemma TwoPiecesAdd(entry: Members, x: string, y: string)
    requires DeltaOf(entry).Some? && Get(DeltaOf(entry).value, "content") == Str(x + y)
    ensures forall c {:trigger ChoiceFold().add(c, entry)} ::
      ChoiceFold().add(ChoiceFold().add(c, WithContent(entry, x)), ContentEntry(Get(entry, "index"), y))
      == ChoiceFold().add(c, entry)
  {
    forall c: Choice
      ensures AddEntry(AddEntry(c, WithContent(entry, x)), ContentEntry(Get(entry, "index"), y)) == AddEntry(c, entry)
    {
      SplitContentAdds(c, entry, x, y);
    }
  }

  /** Cutting the content of one entry in two, the second piece in a chunk of its own right
      after, changes no choice, whatever else the chunk, the entry and the stream carry. */
  lemma SplitContentDelta(
    before: seq<Members>, chunk: Members, p: nat, entry: Members, x: string, y: string, rest: Members, after: seq<Members>)
    requires Carries(chunk, p, entry, x + y) && EntriesOf(rest) == [ContentEntry(Get(entry, "index"), y)]
    ensures Choices(before + [chunk] + after) ==
            Choices(before + [WithEntry(chunk, p, WithContent(entry, x)), rest] + after)
  {
    var items := Items(Get(chunk, "choices"));
    var first := WithContent(entry, x);
    var e2 := ContentEntry(Get(entry, "index"), y);
    EntriesAroundCut(chunk, p, entry, x, x + y);
    FlatAround(EntriesOf, before, chunk, after);
    FlatAroundTwo(EntriesOf, before, WithEntry(chunk, p, first), rest, after);
    WithContentKeeps(entry, x);
    TwoPiecesAdd(entry, x, y);
    SplitLater(
      ChoiceFold(), AllEntries(before), Objects(items[..p]), entry, first, e2, Objects(items[p + 1..]), AllEntries(after));
  }
}

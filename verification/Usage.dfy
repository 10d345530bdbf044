/** Token accounting: reading usage out of decoded JSON, merging what successive stream lines
    report, and the incremental line parser that does so while bytes arrive. */
module Usage {
  import opened Bytes
  import opened Json
  import Seqs

  datatype TokenUsage = TokenUsage(
    input: int, output: int, reasoning: int, cacheRead: int, cacheWrite: int, total: int)
  {
    predicate Empty() {
      input == 0 && output == 0 && reasoning == 0 && cacheRead == 0 && cacheWrite == 0 && total == 0
    }

    function WithTotal(): TokenUsage {
      if total <= 0 then this.(total := input + output) else this
    }
  }

  const NO_USAGE := TokenUsage(0, 0, 0, 0, 0, 0)

  function Newer(old_: int, new_: int): int {
    if new_ > 0 then new_ else old_
  }

  function Merge(dst: TokenUsage, src: TokenUsage): TokenUsage {
    TokenUsage(Newer(dst.input, src.input), Newer(dst.output, src.output), Newer(dst.reasoning, src.reasoning),
               Newer(dst.cacheRead, src.cacheRead), Newer(dst.cacheWrite, src.cacheWrite), Newer(dst.total, src.total))
  }

  // ---------------------------------------------------------------- usage in a JSON object

  function IntField(m: map<string, Value>, keys: seq<string>): int {
    if keys == [] then 0
    else
      var n := AsInt(Get(m, keys[0]));
      if n != 0 then n else IntField(m, keys[1..])
  }

  /** A positive detail overrides the plain field. */
  function Detail(m: map<string, Value>, group: string, key: string, plain: int): int {
    match AsMap(Get(m, group))
    case None => plain
    case Some(d) => var n := IntField(d, [key]); if n > 0 then n else plain
  }

  function TokensFrom(m: map<string, Value>): TokenUsage {
    var reasoning := Detail(m, "completion_tokens_details", "reasoning_tokens", IntField(m, ["reasoning_tokens"]));
    var cached := Detail(m, "prompt_tokens_details", "cached_tokens",
                         IntField(m, ["cache_read_input_tokens", "cached_tokens"]));
    TokenUsage(
      IntField(m, ["input_tokens", "prompt_tokens"]),
      IntField(m, ["output_tokens", "completion_tokens"]),
      Detail(m, "output_tokens_details", "reasoning_tokens", reasoning),
      Detail(m, "input_tokens_details", "cached_tokens", cached),
      IntField(m, ["cache_creation_input_tokens", "cache_write_tokens", "cache_creation_tokens"]),
      IntField(m, ["total_tokens"]))
  }

  function Named(m: map<string, Value>, key: string): int {
    AsInt(Get(m, key))
  }

  function Inside(m: map<string, Value>, group: string, key: string): int {
    if Get(m, group).Obj? then Named(Get(m, group).members, key) else 0
  }

  function Either(a: int, b: int): int {
    if a != 0 then a else b
  }

  function Larger(detail: int, plain: int): int {
    if detail > 0 then detail else plain
  }

  lemma OneKey(m: map<string, Value>, a: string)
    ensures IntField(m, [a]) == Named(m, a)
  {
    assert [a][1..] == [];
  }

  lemma TwoKeys(m: map<string, Value>, a: string, b: string)
    ensures IntField(m, [a, b]) == Either(Named(m, a), Named(m, b))
  {
    assert [a, b][1..] == [b];
    OneKey(m, b);
  }

  lemma ThreeKeys(m: map<string, Value>, a: string, b: string, c: string)
    ensures IntField(m, [a, b, c]) == Either(Named(m, a), Either(Named(m, b), Named(m, c)))
  {
    assert [a, b, c][1..] == [b, c];
    TwoKeys(m, b, c);
  }

  lemma DetailOf(m: map<string, Value>, group: string, key: string, plain: int)
    ensures Detail(m, group, key, plain) == Larger(Inside(m, group, key), plain)
  {
    if Get(m, group).Obj? {
      OneKey(Get(m, group).members, key);
    }
  }

  /** Each field is read under its newer name first, then under its older ones; what a detail group
      says wins over the plain field when it is positive, the newer group over the older. */
  lemma TokensAre(m: map<string, Value>)
    ensures TokensFrom(m).input == Either(Named(m, "input_tokens"), Named(m, "prompt_tokens"))
    ensures TokensFrom(m).output == Either(Named(m, "output_tokens"), Named(m, "completion_tokens"))
    ensures TokensFrom(m).total == Named(m, "total_tokens")
    ensures TokensFrom(m).cacheWrite == Either(Named(m, "cache_creation_input_tokens"),
              Either(Named(m, "cache_write_tokens"), Named(m, "cache_creation_tokens")))
    ensures TokensFrom(m).reasoning == Larger(Inside(m, "output_tokens_details", "reasoning_tokens"),
              Larger(Inside(m, "completion_tokens_details", "reasoning_tokens"), Named(m, "reasoning_tokens")))
    ensures TokensFrom(m).cacheRead == Larger(Inside(m, "input_tokens_details", "cached_tokens"),
              Larger(Inside(m, "prompt_tokens_details", "cached_tokens"),
                     Either(Named(m, "cache_read_input_tokens"), Named(m, "cached_tokens"))))
  {
    TwoKeys(m, "input_tokens", "prompt_tokens");
    TwoKeys(m, "output_tokens", "completion_tokens");
    OneKey(m, "total_tokens");
    OneKey(m, "reasoning_tokens");
    TwoKeys(m, "cache_read_input_tokens", "cached_tokens");
    ThreeKeys(m, "cache_creation_input_tokens", "cache_write_tokens", "cache_creation_tokens");
    var reasoning := Named(m, "reasoning_tokens");
    DetailOf(m, "completion_tokens_details", "reasoning_tokens", reasoning);
    DetailOf(m, "output_tokens_details", "reasoning_tokens",
             Larger(Inside(m, "completion_tokens_details", "reasoning_tokens"), reasoning));
    var cached := Either(Named(m, "cache_read_input_tokens"), Named(m, "cached_tokens"));
    DetailOf(m, "prompt_tokens_details", "cached_tokens", cached);
    DetailOf(m, "input_tokens_details", "cached_tokens", Larger(Inside(m, "prompt_tokens_details", "cached_tokens"), cached));
  }

  function UsageIn(v: Value): TokenUsage {
    match AsMap(v)
    case None => NO_USAGE
    case Some(m) => TokensFrom(m)
  }

  function NestedUsage(m: map<string, Value>, key: string): TokenUsage {
    match AsMap(Get(m, key))
    case None => NO_USAGE
    case Some(inner) => UsageIn(Get(inner, "usage"))
  }

  /** The first non-empty usage at the places where providers put it. */
  function UsageFrom(m: map<string, Value>): Option<TokenUsage> {
    FirstReported([UsageIn(Get(m, "usage")), NestedUsage(m, "data"), NestedUsage(m, "message"),
                   NestedUsage(m, "response"), TokensFrom(m)])
  }

  function FirstReported(us: seq<TokenUsage>): Option<TokenUsage> {
    if us == [] then None else if !us[0].Empty() then Some(us[0]) else FirstReported(us[1..])
  }

  lemma {:induction false} FirstReportedFindsSome(us: seq<TokenUsage>)
    ensures FirstReported(us).Some? ==> !FirstReported(us).value.Empty() && FirstReported(us).value in us
    ensures FirstReported(us).None? <==> forall i :: 0 <= i < |us| ==> us[i].Empty()
    decreases |us|
  {
    if us != [] {
      FirstReportedFindsSome(us[1..]);
      assert us == [us[0]] + us[1..];
    }
  }

  /** Nothing is reported exactly when all five places are empty; what is reported is not. */
  lemma UsageFromFindsSome(m: map<string, Value>)
    ensures UsageFrom(m).Some? ==> !UsageFrom(m).value.Empty()
    ensures UsageFrom(m).None? <==>
      && UsageIn(Get(m, "usage")).Empty() && TokensFrom(m).Empty()
      && NestedUsage(m, "data").Empty() && NestedUsage(m, "message").Empty() && NestedUsage(m, "response").Empty()
    ensures !UsageIn(Get(m, "usage")).Empty() ==> UsageFrom(m) == Some(UsageIn(Get(m, "usage")))
    ensures UsageIn(Get(m, "usage")).Empty() && !NestedUsage(m, "data").Empty() ==>
      UsageFrom(m) == Some(NestedUsage(m, "data"))
  {
    var us := [UsageIn(Get(m, "usage")), NestedUsage(m, "data"), NestedUsage(m, "message"),
               NestedUsage(m, "response"), TokensFrom(m)];
    FirstReportedFindsSome(us);
    AllFive(us);
    assert us[1..][0] == us[1];
  }

  lemma AllFive(us: seq<TokenUsage>)
    requires |us| == 5
    ensures (forall i :: 0 <= i < |us| ==> us[i].Empty())
      <==> us[0].Empty() && us[1].Empty() && us[2].Empty() && us[3].Empty() && us[4].Empty()
  {
  }

  function ParseUsage(c: Codec, raw: bytes): Option<TokenUsage> {
    var t := TrimSpace(raw);
    if t == [] || t[0] != BRACE then None
    else match c.Fields(t)
      case None => None
      case Some(m) => UsageFrom(m)
  }

  // ---------------------------------------------------------------- one stream line

  const DATA: bytes := [100, 97, 116, 97, 58]
  const DONE: bytes := [91, 68, 79, 78, 69, 93]
  const DATA_DONE: bytes := DATA + [32] + DONE

  function LineUsage(c: Codec, raw: bytes): Option<TokenUsage> {
    var line := TrimSpace(raw);
    if line == [] || line == DONE || line == DATA_DONE then None
    else
      var p := if HasPrefix(line, DATA) then TrimSpace(line[|DATA|..]) else line;
      if p == [] || p == DONE || !HasPrefix(p, [BRACE]) then None
      else ParseUsage(c, p)
  }

  function MergeLine(c: Codec, u: TokenUsage, raw: bytes): TokenUsage {
    match LineUsage(c, TrimSpace(raw))
    case None => u
    case Some(x) => Merge(u, x)
  }

  function MergeLines(c: Codec, u: TokenUsage, lines: seq<bytes>): TokenUsage
    decreases |lines|
  {
    if lines == [] then u else MergeLines(c, MergeLine(c, u, lines[0]), lines[1..])
  }

  lemma {:induction false} MergeLinesConcat(c: Codec, u: TokenUsage, a: seq<bytes>, b: seq<bytes>)
    ensures MergeLines(c, u, a + b) == MergeLines(c, MergeLines(c, u, a), b)
    decreases |a|
  {
    if a == [] {
      assert a + b == b;
    } else {
      assert (a + b)[1..] == a[1..] + b;
      MergeLinesConcat(c, MergeLine(c, u, a[0]), a[1..], b);
    }
  }

  /** What a stream reports: all its lines merged, the unterminated last one included. */
  function RecordedUsage(c: Codec, stream: bytes): TokenUsage {
    MergeLine(c, MergeLines(c, NO_USAGE, Lines(stream)), Rest(stream)).WithTotal()
  }

  // ---------------------------------------------------------------- the merge as a plain fold

  datatype Field = Input | Output | Reasoning | CacheRead | CacheWrite | Total

  function Of(u: TokenUsage, f: Field): int {
    match f
    case Input => u.input
    case Output => u.output
    case Reasoning => u.reasoning
    case CacheRead => u.cacheRead
    case CacheWrite => u.cacheWrite
    case Total => u.total
  }

  /** The last positive value any of the lines reports for a field, or 0. */
  function LastPositive(c: Codec, lines: seq<bytes>, f: Field): int {
    if lines == [] then 0
    else if Reported(c, lines[|lines| - 1], f) > 0 then Reported(c, lines[|lines| - 1], f)
    else LastPositive(c, lines[..|lines| - 1], f)
  }

  /** What one line reports for a field, or 0. */
  function Reported(c: Codec, line: bytes, f: Field): int {
    match LineUsage(c, TrimSpace(line))
    case None => 0
    case Some(x) => Of(x, f)
  }

  lemma MergeLineTakesPositive(c: Codec, u: TokenUsage, line: bytes, f: Field)
    ensures Of(MergeLine(c, u, line), f) == Newer(Of(u, f), Reported(c, line, f))
  {
  }

  lemma MergeLinesSnoc(c: Codec, u: TokenUsage, lines: seq<bytes>, line: bytes)
    ensures MergeLines(c, u, lines + [line]) == MergeLine(c, MergeLines(c, u, lines), line)
  {
    MergeLinesConcat(c, u, lines, [line]);
    MergeOne(c, MergeLines(c, u, lines), line);
  }

  lemma MergeOne(c: Codec, u: TokenUsage, line: bytes)
    ensures MergeLines(c, u, [line]) == MergeLine(c, u, line)
  {
    assert [line][1..] == [];
  }

  lemma LastPositiveSnoc(c: Codec, lines: seq<bytes>, line: bytes, f: Field)
    ensures LastPositive(c, lines + [line], f) == Newer(LastPositive(c, lines, f), Reported(c, line, f))
  {
    Seqs.FrontOfSnoc(lines, line);
  }

  lemma {:induction false} MergedPrefix(c: Codec, lines: seq<bytes>, k: nat, f: Field)
    requires k <= |lines|
    ensures Of(MergeLines(c, NO_USAGE, lines[..k]), f) == LastPositive(c, lines[..k], f)
    decreases k
  {
    if k > 0 {
      MergedPrefix(c, lines, k - 1, f);
      MergedSnoc(c, lines[..k - 1], lines[k - 1], f);
      Seqs.PrefixSnoc(lines, k);
    }
  }

  lemma MergedSnoc(c: Codec, lines: seq<bytes>, line: bytes, f: Field)
    requires Of(MergeLines(c, NO_USAGE, lines), f) == LastPositive(c, lines, f)
    ensures Of(MergeLines(c, NO_USAGE, lines + [line]), f) == LastPositive(c, lines + [line], f)
  {
    MergeLinesSnoc(c, NO_USAGE, lines, line);
    MergeLineTakesPositive(c, MergeLines(c, NO_USAGE, lines), line, f);
    LastPositiveSnoc(c, lines, line, f);
  }

  lemma MergedIsLastPositive(c: Codec, lines: seq<bytes>, f: Field)
    ensures Of(MergeLines(c, NO_USAGE, lines), f) == LastPositive(c, lines, f)
  {
    MergedPrefix(c, lines, |lines|, f);
    assert lines[..|lines|] == lines;
  }

  lemma WithTotalFillsIn(u: TokenUsage, f: Field)
    ensures Of(u.WithTotal(), f)
      == if f == Total && Of(u, Total) <= 0 then Of(u, Input) + Of(u, Output) else Of(u, f)
  {
  }

  /** The last positive value of a field; a missing total is the sum of input and output. */
  function LastReported(c: Codec, lines: seq<bytes>, f: Field): int {
    if f == Total && LastPositive(c, lines, Total) <= 0
    then LastPositive(c, lines, Input) + LastPositive(c, lines, Output)
    else LastPositive(c, lines, f)
  }

  lemma TotalOfMerged(c: Codec, lines: seq<bytes>, f: Field)
    ensures Of(MergeLines(c, NO_USAGE, lines).WithTotal(), f) == LastReported(c, lines, f)
  {
    WithTotalFillsIn(MergeLines(c, NO_USAGE, lines), f);
    MergedIsLastPositive(c, lines, f);
    MergedIsLastPositive(c, lines, Input);
    MergedIsLastPositive(c, lines, Output);
    MergedIsLastPositive(c, lines, Total);
  }

  lemma RecordedIsMerged(c: Codec, stream: bytes)
    ensures RecordedUsage(c, stream) == MergeLines(c, NO_USAGE, Lines(stream) + [Rest(stream)]).WithTotal()
  {
    MergeLinesSnoc(c, NO_USAGE, Lines(stream), Rest(stream));
  }

  /** The recorded usage is, field by field, the last positive value in the stream. */
  lemma RecordedIsLastPositive(c: Codec, stream: bytes, f: Field)
    ensures Of(RecordedUsage(c, stream), f) == LastReported(c, Lines(stream) + [Rest(stream)], f)
  {
    RecordedIsMerged(c, stream);
    TotalOfMerged(c, Lines(stream) + [Rest(stream)], f);
  }

  // ---------------------------------------------------------------- the incremental parser

  const MAX_PARTIAL: nat := 4 * 1024 * 1024

  datatype Parse = Parse(usage: TokenUsage, rest: bytes)

  /** One write: dropped while the partial line is over the cap. */
  function Written(c: Codec, p: Parse, b: bytes): Parse {
    if |p.rest| > MAX_PARTIAL then p
    else Parse(MergeLines(c, p.usage, Lines(p.rest + b)), Rest(p.rest + b))
  }

  class Parser {
    const codec: Codec
    var buf: bytes
    var usage: TokenUsage

    constructor (codec: Codec)
      ensures this.codec == codec && View() == Parse(NO_USAGE, [])
    {
      this.codec := codec;
      buf, usage := [], NO_USAGE;
    }

    function View(): Parse
      reads this
    {
      Parse(usage, buf)
    }

    method Write(b: bytes)
      modifies this
      ensures View() == Written(codec, old(View()), b)
    {
      if |buf| > MAX_PARTIAL {
        return;
      }
      var raw := buf + b;
      while true
        invariant MergeLines(codec, usage, Lines(raw)) == MergeLines(codec, old(usage), Lines(old(buf) + b))
        invariant Rest(raw) == Rest(old(buf) + b)
        decreases |raw|
      {
        var i := IndexLF(raw);
        if i < 0 {
          break;
        }
        ghost var before := raw;
        Consume(raw[..i]);
        raw := raw[i + 1..];
        assert Lines(before)[1..] == Lines(raw);
      }
      buf := raw;
    }

    method Consume(line: bytes)
      modifies this`usage
      ensures usage == MergeLine(codec, old(usage), line)
    {
      var u := LineUsage(codec, TrimSpace(line));
      if u.Some? {
        usage := Merge(usage, u.value);
      }
    }

    /** Reading the result consumes the unterminated last line but keeps it in the buffer. */
    method Result() returns (u: TokenUsage)
      modifies this`usage
      ensures usage == MergeLine(codec, old(usage), buf)
      ensures u == usage.WithTotal()
    {
      Consume(buf);
      u := usage.WithTotal();
    }
  }

  /** Asking for the result again does not change it. */
  lemma ResultIsStable(c: Codec, u: TokenUsage, line: bytes)
    ensures MergeLine(c, MergeLine(c, u, line), line) == MergeLine(c, u, line)
  {
  }
}

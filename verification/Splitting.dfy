/** Cutting one content delta of a stream in two changes nothing in the assembled answer. */
module Splitting {
  import opened Json
  import opened Usage
  import opened Assembly
  import opened Assembler

  // ---------------------------------------------------------------- metadata

  /** What a chunk contributes to the answer besides its choices. */
  const HEADER := {"id", "created", "model", "system_fingerprint", "service_tier", "usage", "object"}

  /** Every header member of `rest` is one that `chunk` has with the same value. */
  predicate Repeats(rest: Members, chunk: Members) {
    forall k :: k in HEADER && k in rest ==> k in chunk && rest[k] == chunk[k]
  }

  predicate SameHeader(a: Members, b: Members) {
    forall k :: k in HEADER ==> (k in a <==> k in b) && Get(a, k) == Get(b, k)
  }

  /** Whether a chunk says something under one of the metadata keys. */
  predicate Says(o: Members, k: string) {
    if k in {"id", "model"} then Assembly.Text(Get(o, k)) != ""
    else if k == "created" then k in o
    else k in {"system_fingerprint", "service_tier"} && Get(o, k) != Null
  }

  lemma AddMetaIs(m: Members, o: Members, k: string)
    ensures k in AddMeta(m, o) <==> k in m || Says(o, k)
    ensures Get(AddMeta(m, o), k) == if Says(o, k) then Get(o, k) else Get(m, k)
  {
  }

  lemma SameEverywhere(a: Members, b: Members)
    requires forall k :: (k in a <==> k in b) && Get(a, k) == Get(b, k)
    ensures a == b
  {
    forall k | k in a ensures a[k] == b[k] {
      assert Get(a, k) == Get(b, k);
    }
  }

  lemma SaysAlike(a: Members, b: Members, k: string)
    requires SameHeader(a, b)
    ensures Says(a, k) <==> Says(b, k)
    ensures Says(a, k) ==> Get(a, k) == Get(b, k)
  {
    assert k in HEADER ==> (k in a <==> k in b) && Get(a, k) == Get(b, k);
  }

  lemma SameHeaderSameMeta(m: Members, a: Members, b: Members)
    requires SameHeader(a, b)
    ensures AddMeta(m, a) == AddMeta(m, b)
  {
    forall k ensures (k in AddMeta(m, a) <==> k in AddMeta(m, b)) && Get(AddMeta(m, a), k) == Get(AddMeta(m, b), k) {
      AddMetaIs(m, a, k);
      AddMetaIs(m, b, k);
      SaysAlike(a, b, k);
    }
    SameEverywhere(AddMeta(m, a), AddMeta(m, b));
  }

  lemma SaysAgain(chunk: Members, rest: Members, k: string)
    requires Repeats(rest, chunk) && Says(rest, k)
    ensures Says(chunk, k) && Get(rest, k) == Get(chunk, k)
  {
    assert k in HEADER && k in rest;
  }

  lemma RepeatingAddsNothing(m: Members, chunk: Members, rest: Members)
    requires Repeats(rest, chunk)
    ensures AddMeta(AddMeta(m, chunk), rest) == AddMeta(m, chunk)
  {
    var once := AddMeta(m, chunk);
    forall k ensures (k in AddMeta(once, rest) <==> k in once) && Get(AddMeta(once, rest), k) == Get(once, k) {
      AddMetaIs(m, chunk, k);
      AddMetaIs(once, rest, k);
      if Says(rest, k) {
        SaysAgain(chunk, rest, k);
      }
    }
    SameEverywhere(AddMeta(once, rest), once);
  }

  // ---------------------------------------------------------------- positions

  lemma Around<T>(before: seq<T>, x: T, after: seq<T>)
    requires after != []
    ensures (before + [x] + after)[..|before| + |after|] == before + [x] + after[..|after| - 1]
    ensures (before + [x] + after)[|before| + |after|] == after[|after| - 1]
  {
  }

  lemma AroundTwo<T>(before: seq<T>, x: T, y: T, after: seq<T>)
    requires after != []
    ensures (before + [x, y] + after)[..|before| + |after| + 1] == before + [x, y] + after[..|after| - 1]
    ensures (before + [x, y] + after)[|before| + |after| + 1] == after[|after| - 1]
  {
  }

  lemma Last<T>(before: seq<T>, x: T, y: T)
    ensures before + [x] + [] == before + [x] && (before + [x])[..|before|] == before
    ensures before + [x, y] + [] == before + [x] + [y] && (before + [x] + [y])[..|before| + 1] == before + [x]
  {
  }

  lemma {:induction false} CutKeepsMeta(
    before: seq<Members>, chunk: Members, first: Members, rest: Members, after: seq<Members>)
    requires SameHeader(first, chunk) && Repeats(rest, chunk)
    ensures Meta(before + [chunk] + after) == Meta(before + [first, rest] + after)
    decreases |after|
  {
    if after == [] {
      Last(before, chunk, rest);
      Last(before, first, rest);
      SameHeaderSameMeta(Meta(before), first, chunk);
      RepeatingAddsNothing(Meta(before), chunk, rest);
    } else {
      Around(before, chunk, after);
      AroundTwo(before, first, rest, after);
      CutKeepsMeta(before, chunk, first, rest, after[..|after| - 1]);
    }
  }

  lemma {:induction false} CutKeepsUsage(
    before: seq<Members>, chunk: Members, first: Members, rest: Members, after: seq<Members>)
    requires SameHeader(first, chunk) && Repeats(rest, chunk)
    ensures LastUsage(before + [chunk] + after) == LastUsage(before + [first, rest] + after)
    decreases |after|
  {
    if after == [] {
      Last(before, chunk, rest);
      Last(before, first, rest);
      assert "usage" in HEADER;
    } else {
      Around(before, chunk, after);
      AroundTwo(before, first, rest, after);
      CutKeepsUsage(before, chunk, first, rest, after[..|after| - 1]);
    }
  }

  // ---------------------------------------------------------------- the first complete answer

  lemma {:induction false} FirstWholeFrom(objs: seq<Members>, from: nat)
    requires from <= |objs| && forall i :: 0 <= i < from ==> !IsWhole(objs[i])
    ensures WholeIsAt(objs, FirstWhole(objs, from))
    decreases |objs| - from
  {
    if from < |objs| && !IsWhole(objs[from]) {
      FirstWholeFrom(objs, from + 1);
    }
  }

  lemma CutMovesWhole(before: seq<Members>, chunk: Members, first: Members, rest: Members, after: seq<Members>, n: nat)
    requires !IsWhole(chunk) && !IsWhole(first) && !IsWhole(rest) && WholeIsAt(before + [chunk] + after, n)
    ensures n != |before| && WholeIsAt(before + [first, rest] + after, if n < |before| then n else n + 1)
  {
    var whole, cut := before + [chunk] + after, before + [first, rest] + after;
    assert whole[|before|] == chunk;
    forall i | 0 <= i < |cut| && i != |before| && i != |before| + 1
      ensures cut[i] == whole[if i < |before| then i else i - 1]
    {
    }
  }

  // ---------------------------------------------------------------- the answer

  lemma WholeAlike(a: seq<Members>, b: seq<Members>, u: TokenUsage, n: nat, m: nat)
    requires n < |a| && m < |b| && WholeIsAt(a, n) && WholeIsAt(b, m)
    requires a[n] == b[m] && LastUsage(a[..n]) == LastUsage(b[..m])
    ensures Answer(a, u) == Answer(b, u)
  {
    AnswerIsWhole(a, u, n);
    AnswerIsWhole(b, u, m);
  }

  lemma Prefixes<T>(before: seq<T>, x: T, y: T, z: T, after: seq<T>, n: nat)
    requires n < |before| || |before| < n <= |before| + |after|
    ensures var whole, cut := before + [x] + after, before + [y, z] + after;
      var m := if n < |before| then n else n + 1;
      && whole[n] == cut[m]
      && (n < |before| ==> whole[..n] == cut[..m])
      && (n > |before| ==>
            var k := n - |before| - 1;
            whole[..n] == before + [x] + after[..k] && cut[..m] == before + [y, z] + after[..k])
  {
  }

  lemma AssembledAlike(a: seq<Members>, b: seq<Members>, u: TokenUsage)
    requires WholeIsAt(a, |a|) && WholeIsAt(b, |b|)
    requires Meta(a) == Meta(b) && LastUsage(a) == LastUsage(b) && Choices(a) == Choices(b)
    ensures Answer(a, u) == Answer(b, u)
  {
    AnswerIsAssembled(a, u);
    AnswerIsAssembled(b, u);
  }

  /** A stream in which a chunk is replaced by two that add the same choices and metadata. */
  lemma CutKeepsAnswer(
    before: seq<Members>, chunk: Members, first: Members, rest: Members, after: seq<Members>, u: TokenUsage)
    requires SameHeader(first, chunk) && Repeats(rest, chunk)
    requires !IsWhole(chunk) && !IsWhole(first) && !IsWhole(rest)
    requires Choices(before + [chunk] + after) == Choices(before + [first, rest] + after)
    ensures Answer(before + [chunk] + after, u) == Answer(before + [first, rest] + after, u)
  {
    var whole, cut := before + [chunk] + after, before + [first, rest] + after;
    var n := FirstWhole(whole);
    FirstWholeFrom(whole, 0);
    CutMovesWhole(before, chunk, first, rest, after, n);
    if n < |whole| {
      Prefixes(before, chunk, first, rest, after, n);
      if n > |before| {
        CutKeepsUsage(before, chunk, first, rest, after[..n - |before| - 1]);
      }
      WholeAlike(whole, cut, u, n, if n < |before| then n else n + 1);
    } else {
      CutKeepsMeta(before, chunk, first, rest, after);
      CutKeepsUsage(before, chunk, first, rest, after);
      AssembledAlike(whole, cut, u);
    }
  }

  lemma NotWhole(chunk: Members, first: Members, rest: Members)
    requires SameHeader(first, chunk) && Repeats(rest, chunk) && !IsWhole(chunk)
    ensures !IsWhole(first) && !IsWhole(rest)
  {
    assert "object" in HEADER;
  }

  /** Cutting the content of one entry in two changes nothing in the answer, whatever other
      members the chunk, the entry and the rest of the stream carry. The second piece comes in a
      chunk of its own right after, which may repeat the header of the first. */
  lemma SplitContentKeepsAnswer(
    before: seq<Members>, chunk: Members, p: nat, entry: Members, x: string, y: string, rest: Members,
    after: seq<Members>, u: TokenUsage)
    requires Carries(chunk, p, entry, x + y) && EntriesOf(rest) == [ContentEntry(Get(entry, "index"), y)]
    requires !IsWhole(chunk) && Repeats(rest, chunk)
    ensures Answer(before + [chunk] + after, u) ==
            Answer(before + [WithEntry(chunk, p, WithContent(entry, x)), rest] + after, u)
  {
    var first := WithEntry(chunk, p, WithContent(entry, x));
    NotWhole(chunk, first, rest);
    SplitContentDelta(before, chunk, p, entry, x, y, rest, after);
    CutKeepsAnswer(before, chunk, first, rest, after, u);
  }
}

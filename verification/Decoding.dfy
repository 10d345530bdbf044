/** Which objects a whole upstream stream decodes to. */
module Decoding {
  import opened Bytes
  import opened Json
  import opened Usage
  import Stream
  import opened KeyedFold
  import opened Assembler
  import Meaning
  import Shape
  import Seqs

  type Members = map<string, Value>

  /** A text that does not decode has no members. */
  ghost predicate Strict(c: Codec) {
    forall t {:trigger c.members(t)} :: c.parse(t).None? ==> c.members(t).None?
  }

  /** The object a line carries, free of its envelopes, or nothing. */
  function ObjectOf(e: Stream.Env, raw: bytes): seq<Members> {
    match Meaning.Object(e, Meaning.PayloadOf(Stream.Text(raw)))
    case None => []
    case Some(o) => [Meaning.Opened(o, 3)]
  }

  function DecodedAll(e: Stream.Env, payloads: seq<bytes>): seq<Members> {
    Flat(p => Decoded(e, p), payloads)
  }

  lemma NothingDecodes(e: Stream.Env)
    ensures DecodedAll(e, []) == []
  {
  }

  lemma OneDecodes(e: Stream.Env, p: bytes)
    ensures DecodedAll(e, [p]) == Decoded(e, p)
  {
    FlatOne(q => Decoded(e, q), p);
  }

  lemma BraceIsNotDone(t: bytes)
    requires TrimSpace(t) == t && t != [] && t[0] == BRACE
    ensures !Stream.IsDone(t)
  {
    assert t != DONE && !HasPrefix(t, DATA);
  }

  lemma DataBraceIsNotDone(line: bytes)
    requires TrimSpace(line) == line && HasPrefix(line, DATA)
    requires var p := TrimSpace(line[|DATA|..]); p != [] && p[0] == BRACE
    ensures !Stream.IsDone(line)
  {
    assert line != DONE && TrimSpace(line[|DATA|..]) != DONE;
  }

  lemma BracePayload(raw: bytes)
    ensures var p := Meaning.PayloadOf(Stream.Text(raw));
      Payload(raw) == if p != [] && p[0] == BRACE then [p] else []
  {
    var line := TrimSpace(Stream.Text(raw));
    var p := Meaning.PayloadOf(Stream.Text(raw));
    Shape.TrimIsStable(Stream.Text(raw));
    PayloadIsTrimmed(Stream.Text(raw));
    if p != [] && p[0] == BRACE {
      BraceIsNotDone(p);
      if HasPrefix(line, DATA) {
        DataBraceIsNotDone(line);
      }
    }
  }

  lemma BraceDecodes(e: Stream.Env, p: bytes)
    requires e.codec.Lawful() && Strict(e.codec) && TrimSpace(p) == p && p != [] && p[0] == BRACE
    ensures Decoded(e, p) == match Meaning.Object(e, p) case None => [] case Some(o) => [Meaning.Opened(o, 3)]
  {
    if Meaning.Object(e, p).Some? {
      Meaning.UnwrapMeans(e, p, Meaning.Object(e, p).value, 3);
    } else {
      if e.codec.parse(p).Some? {
        e.codec.NoObject(p);
      } else {
        assert e.codec.members(p).None?;
      }
      assert Stream.UnwrapOnce(e, p) == p;
    }
  }

  lemma LineDecodes(e: Stream.Env, raw: bytes)
    requires e.codec.Lawful() && Strict(e.codec)
    ensures DecodedAll(e, Payload(raw)) == ObjectOf(e, raw)
  {
    var p := Meaning.PayloadOf(Stream.Text(raw));
    BracePayload(raw);
    PayloadIsTrimmed(Stream.Text(raw));
    if p != [] && p[0] == BRACE {
      BraceDecodes(e, p);
      OneDecodes(e, p);
    } else {
      NothingDecodes(e);
      if Meaning.Object(e, p).Some? {
        e.codec.TrimObject(p);
      }
    }
  }

  lemma PayloadIsTrimmed(line: bytes)
    ensures TrimSpace(Meaning.PayloadOf(line)) == Meaning.PayloadOf(line)
  {
    Shape.TrimIsStable(line);
    if HasPrefix(TrimSpace(line), DATA) {
      Shape.TrimIsStable(TrimSpace(line)[|DATA|..]);
    }
  }

  lemma {:induction false} LinesDecode(e: Stream.Env, lines: seq<bytes>)
    requires e.codec.Lawful() && Strict(e.codec)
    ensures DecodedAll(e, Flat(Payload, lines)) == Flat(raw => ObjectOf(e, raw), lines)
    decreases |lines|
  {
    if lines == [] {
      NothingDecodes(e);
    } else {
      var front, last := lines[..|lines| - 1], lines[|lines| - 1];
      LinesDecode(e, front);
      FlatConcat(p => Decoded(e, p), Flat(Payload, front), Payload(last));
      LineDecodes(e, last);
    }
  }

  /** What a line reports to the usage parser is what its object reports. */
  lemma LineReports(e: Stream.Env, line: bytes)
    requires e.codec.Lawful()
    ensures LineUsage(e.codec, line) ==
      match Meaning.Object(e, Meaning.PayloadOf(line)) case None => None case Some(o) => UsageFrom(o)
  {
    var t, p := TrimSpace(line), Meaning.PayloadOf(line);
    PayloadIsTrimmed(line);
    if Meaning.Object(e, p).Some? {
      e.codec.TrimObject(p);
      BraceIsNotDone(p);
      ReportOf(e, line);
    } else if p != [] && p[0] == BRACE {
      if e.codec.parse(p).Some? {
        e.codec.NoObject(p);
      }
      ReportOf(e, line);
    }
  }

  lemma ReportOf(e: Stream.Env, line: bytes)
    requires Meaning.PayloadOf(line) != [] && Meaning.PayloadOf(line)[0] == BRACE
    ensures LineUsage(e.codec, line) == ParseUsage(e.codec, Meaning.PayloadOf(line))
  {
    var t, p := TrimSpace(line), Meaning.PayloadOf(line);
    assert p != DONE && t != DONE;
    if HasPrefix(t, DATA) && t == DATA_DONE {
      assert t[|DATA|..] == [32] + DONE;
      DoneAfterData();
    }
  }

  lemma DoneAfterData()
    ensures TrimSpace([32] + DONE) == DONE
  {
    var s: bytes := [32] + DONE;
    assert LeadingSpace(s) == 1 && s[1..] == DONE;
    assert LeadingSpace(DONE) == 0 && TrailingSpace(DONE) == 0;
    assert TrimLeft(s) == TrimLeft(DONE) == DONE && TrimRight(DONE) == DONE;
  }

  /** A stream decodes to the objects that its lines carry, in order, each free of its envelopes;
      nothing else in it counts. */
  lemma DecodeMeans(e: Stream.Env, raw: bytes)
    requires e.codec.Lawful() && Strict(e.codec)
    ensures Decode(e, raw) == Flat(line => ObjectOf(e, line), Lines(raw) + [Rest(raw)])
  {
    LinesDecode(e, Lines(raw) + [Rest(raw)]);
  }

  // ---------------------------------------------------------------- what counts as a stream

  /** A data line begins after the line feed at `j`. */
  predicate DataAfter(t: bytes, j: nat) {
    j < |t| && t[j] == LF && HasPrefix(t[j + 1..], DATA)
  }

  /** A text starts with a data line, or has one after some line feed. */
  ghost predicate HasData(t: bytes) {
    HasPrefix(t, DATA) || exists j: nat :: DataAfter(t, j)
  }

  lemma PrefixCons(s: bytes, x: byte, p: bytes)
    ensures HasPrefix(s, [x] + p) <==> s != [] && s[0] == x && HasPrefix(s[1..], p)
  {
    if |s| > |p| {
      assert s[..|p| + 1] == [s[0]] + s[1..][..|p|];
      if s[..|p| + 1] == [x] + p {
        assert s[0] == ([x] + p)[0] && s[1..][..|p|] == ([x] + p)[1..] == p;
      }
    }
  }

  lemma LooksHasData(raw: bytes)
    ensures LooksLikeStream(raw) <==> HasData(TrimMargin(raw))
  {
    var t := TrimMargin(raw);
    forall j | 0 <= j <= |t| ensures HasPrefix(t[j..], [LF] + DATA) <==> DataAfter(t, j) {
      PrefixCons(t[j..], LF, DATA);
      if j < |t| {
        assert t[j..][1..] == t[j + 1..];
      }
    }
  }

  ghost predicate SomeData(lines: seq<bytes>) {
    exists k :: 0 <= k < |lines| && HasPrefix(lines[k], DATA)
  }

  lemma SomeDataCons(line: bytes, lines: seq<bytes>)
    ensures SomeData([line] + lines) <==> HasPrefix(line, DATA) || SomeData(lines)
  {
    var all := [line] + lines;
    assert all[0] == line && forall k :: 0 <= k < |lines| ==> all[k + 1] == lines[k];
    if SomeData(lines) {
      var k :| 0 <= k < |lines| && HasPrefix(lines[k], DATA);
      assert HasPrefix(all[k + 1], DATA);
    }
  }

  lemma PrefixHasNoLF(t: bytes, i: nat)
    requires HasPrefix(t, DATA) && i < |DATA|
    ensures t[i] != LF
  {
    assert t[i] == t[..|DATA|][i] == DATA[i];
  }

  lemma DataBeforeLF(t: bytes, i: nat)
    requires i < |t| && t[i] == LF
    ensures HasPrefix(t[..i], DATA) <==> HasPrefix(t, DATA)
  {
    if i < |DATA| {
      if HasPrefix(t, DATA) {
        PrefixHasNoLF(t, i);
      }
    } else {
      assert t[..i][..|DATA|] == t[..|DATA|];
    }
  }

  lemma DataAfterLF(t: bytes, i: nat)
    requires i < |t| && t[i] == LF && forall j :: 0 <= j < i ==> t[j] != LF
    ensures HasData(t) <==> HasPrefix(t, DATA) || HasData(t[i + 1..])
  {
    var rest := t[i + 1..];
    forall j: nat ensures DataAfter(rest, j) <==> DataAfter(t, i + 1 + j) {
      if j < |rest| {
        assert rest[j] == t[i + 1 + j] && rest[j + 1..] == t[i + 1 + j + 1..];
      }
    }
    if exists j: nat :: DataAfter(t, j) {
      var j: nat :| DataAfter(t, j);
      assert j >= i;
      if j > i {
        assert DataAfter(rest, j - i - 1);
      }
    }
    if HasPrefix(rest, DATA) {
      assert DataAfter(t, i);
    }
  }

  lemma OneLine(t: bytes)
    requires forall j :: 0 <= j < |t| ==> t[j] != LF
    ensures HasData(t) <==> HasPrefix(t, DATA)
    ensures SomeData([t]) <==> HasPrefix(t, DATA)
  {
    SomeDataCons(t, []);
    assert [t] + [] == [t];
  }

  lemma LinesAfterLF(t: bytes, i: nat)
    requires IndexLF(t) == i
    ensures SomeData(Lines(t) + [Rest(t)])
      <==> HasPrefix(t[..i], DATA) || SomeData(Lines(t[i + 1..]) + [Rest(t[i + 1..])])
  {
    Stream.FirstLine(t);
    SomeDataCons(t[..i], Lines(t[i + 1..]) + [Rest(t[i + 1..])]);
    Seqs.Assoc([t[..i]], Lines(t[i + 1..]), [Rest(t[i + 1..])]);
  }

  /** A text has data exactly when one of its lines is a data line. */
  lemma {:induction false} DataIsSomeLine(t: bytes)
    ensures HasData(t) <==> SomeData(Lines(t) + [Rest(t)])
    decreases |t|
  {
    var i := IndexLF(t);
    FoundIsFirst(t, 0);
    if i < 0 {
      OneLine(t);
      Stream.FirstLine(t);
      assert [] + [t] == [t];
    } else {
      DataIsSomeLine(t[i + 1..]);
      DataAfterLF(t, i);
      DataBeforeLF(t, i);
      LinesAfterLF(t, i);
    }
  }

  /** An upstream answer is assembled as a stream exactly when some line of it, after the white space
      it begins with, is a data line. */
  lemma LooksLikeStreamExactly(raw: bytes)
    ensures LooksLikeStream(raw) <==> SomeData(Lines(TrimMargin(raw)) + [Rest(TrimMargin(raw))])
  {
    LooksHasData(raw);
    DataIsSomeLine(TrimMargin(raw));
  }
}

/** The additive metrics of one request log, and their totals per hour, model and channel. */
module Metrics {

  const HOUR := 3_600_000

  datatype Log = Log(
    createdAt: int, model: string, channel: string, stream: bool, status: string,
    input: int, output: int, reasoning: int, cacheRead: int, cacheWrite: int, total: int,
    duration: int, ttft: int)

  datatype Key = Key(hour: int, model: string, channel: string)

  datatype Metrics = Metrics(
    requests: int, success: int, errors: int, processing: int,
    input: int, output: int, reasoning: int, cacheRead: int, cacheWrite: int, total: int,
    ttftSum: int, ttftSamples: int, tpsSum: real, tpsSamples: int)

  const ZERO := Metrics(0, 0, 0, 0, 0, 0, 0, 0, 0, 0, 0, 0, 0.0, 0)

  /** Integer division as SQL and Go do it, towards zero. */
  function Quotient(a: int, b: int): int
    requires b > 0
  {
    if a >= 0 then a / b else -(-a / b)
  }

  function HourOf(createdAt: int): int {
    Quotient(createdAt, HOUR) * HOUR
  }

  function KeyOf(l: Log): Key {
    Key(HourOf(l.createdAt), l.model, l.channel)
  }

  function When(b: bool, n: int): int {
    if b then n else 0
  }

  /** What one log adds to its row. */
  function Contribution(l: Log): Metrics {
    var timed := l.status == "completed" && l.stream && l.ttft > 0;
    var measured := timed && l.duration > l.ttft && l.output > 0;
    Metrics(1, When(l.status == "completed", 1), When(l.status == "error", 1), When(l.status == "processing", 1),
            l.input, l.output, l.reasoning, l.cacheRead, l.cacheWrite, l.total,
            When(timed, l.ttft), When(timed, 1),
            if measured then 1000.0 * l.output as real / (l.duration - l.ttft) as real else 0.0,
            When(measured, 1))
  }

  function Plus(a: Metrics, b: Metrics): Metrics {
    Metrics(a.requests + b.requests, a.success + b.success, a.errors + b.errors, a.processing + b.processing,
            a.input + b.input, a.output + b.output, a.reasoning + b.reasoning, a.cacheRead + b.cacheRead,
            a.cacheWrite + b.cacheWrite, a.total + b.total, a.ttftSum + b.ttftSum, a.ttftSamples + b.ttftSamples,
            a.tpsSum + b.tpsSum, a.tpsSamples + b.tpsSamples)
  }

  function Minus(a: Metrics): Metrics {
    Metrics(-a.requests, -a.success, -a.errors, -a.processing, -a.input, -a.output, -a.reasoning, -a.cacheRead,
            -a.cacheWrite, -a.total, -a.ttftSum, -a.ttftSamples, -a.tpsSum, -a.tpsSamples)
  }

  lemma PlusZero(a: Metrics)
    ensures Plus(a, ZERO) == a && Plus(ZERO, a) == a
  {
  }

  lemma PlusMoves(a: Metrics, b: Metrics, c: Metrics, d: Metrics)
    ensures Plus(Plus(Plus(a, b), c), d) == Plus(Plus(Plus(a, c), d), b)
  {
  }

  /** Replacing a summand takes the old one off and puts the new one on. */
  lemma PlusReplaces(a: Metrics, old': Metrics, new': Metrics)
    ensures Plus(Plus(Plus(a, old'), Minus(old')), new') == Plus(a, new')
  {
  }

  // ---------------------------------------------------------------- totals

  /** What each log counts for in a total. */
  type Part = Log -> Metrics

  function Total(logs: seq<Log>, part: Part): Metrics
    decreases |logs|
  {
    if logs == [] then ZERO else Plus(Total(logs[..|logs| - 1], part), part(logs[|logs| - 1]))
  }

  function InRow(key: Key): Part {
    (l: Log) => if KeyOf(l) == key then Contribution(l) else ZERO
  }

  lemma TotalSnoc(logs: seq<Log>, l: Log, part: Part)
    ensures Total(logs + [l], part) == Plus(Total(logs, part), part(l))
  {
    assert (logs + [l])[..|logs|] == logs;
  }

  /** Rewriting one log is the same as subtracting its old value and adding its new one. */
  lemma {:induction false} TotalUpdate(logs: seq<Log>, i: nat, l: Log, part: Part)
    requires i < |logs|
    ensures Total(logs[i := l], part) == Plus(Plus(Total(logs, part), Minus(part(logs[i]))), part(l))
    decreases |logs|
  {
    var front, last, updated := logs[..|logs| - 1], logs[|logs| - 1], logs[i := l];
    if i == |logs| - 1 {
      assert updated[..|updated| - 1] == front;
      PlusReplaces(Total(front, part), part(last), part(l));
    } else {
      TotalUpdate(front, i, l, part);
      assert updated[..|updated| - 1] == front[i := l];
      PlusMoves(Total(front, part), part(last), Minus(part(logs[i])), part(l));
    }
  }

  /** Nothing is measured without a request. */
  predicate Counted(m: Metrics) {
    m.requests >= 0 && (m.requests == 0 ==> m == ZERO)
  }

  lemma PlusCounted(a: Metrics, b: Metrics)
    requires Counted(a) && Counted(b)
    ensures Counted(Plus(a, b))
  {
    if a.requests == 0 {
      PlusZero(b);
    } else {
      assert Plus(a, b).requests > 0;
    }
  }

  /** A total without requests has every metric zero: nothing is lost by leaving it out. */
  lemma {:induction false} NoRequestsNoMetrics(logs: seq<Log>, part: Part)
    requires forall l :: Counted(part(l))
    ensures Counted(Total(logs, part))
    decreases |logs|
  {
    if logs != [] {
      NoRequestsNoMetrics(logs[..|logs| - 1], part);
      PlusCounted(Total(logs[..|logs| - 1], part), part(logs[|logs| - 1]));
    }
  }

  /** The counters of a row fit together: every request has at most one outcome, and only
      completed streamed requests are timed. */
  predicate Coherent(m: Metrics) {
    && 0 <= m.tpsSamples <= m.ttftSamples <= m.success && 0 <= m.errors && 0 <= m.processing
    && m.success + m.errors + m.processing <= m.requests
    && m.ttftSum >= m.ttftSamples && m.tpsSum >= 0.0 && (m.tpsSamples == 0 ==> m.tpsSum == 0.0)
  }

  lemma PlusCoherent(a: Metrics, b: Metrics)
    requires Coherent(a) && Coherent(b)
    ensures Coherent(Plus(a, b))
  {
  }

  lemma ContributionCoherent(l: Log)
    ensures Coherent(Contribution(l)) && Contribution(l).requests == 1
  {
    var m := Contribution(l);
    if m.tpsSamples == 1 {
      assert (l.duration - l.ttft) as real > 0.0 && l.output as real > 0.0;
      Positive(l.output as real, (l.duration - l.ttft) as real);
    }
  }

  lemma Positive(a: real, b: real)
    requires a > 0.0 && b > 0.0
    ensures 1000.0 * a / b > 0.0
  {
  }

  lemma {:induction false} TotalCoherent(logs: seq<Log>, part: Part)
    requires forall l :: Coherent(part(l))
    ensures Coherent(Total(logs, part))
    decreases |logs|
  {
    if logs != [] {
      TotalCoherent(logs[..|logs| - 1], part);
      PlusCoherent(Total(logs[..|logs| - 1], part), part(logs[|logs| - 1]));
    }
  }
}

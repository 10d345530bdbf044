/** The columns of a total, each as a plain sum over the logs it is about. */
module Columns {
  import opened Metrics

  /** Which logs a total is about, and what a column reads off one of them. */
  type Choice = Log -> bool

  function Sum(logs: seq<Log>, choose: Choice, column: Log -> int): int
    decreases |logs|
  {
    if logs == [] then 0
    else
      var last := logs[|logs| - 1];
      Sum(logs[..|logs| - 1], choose, column) + if choose(last) then column(last) else 0
  }

  function RealSum(logs: seq<Log>, choose: Choice, column: Log -> real): real
    decreases |logs|
  {
    if logs == [] then 0.0
    else
      var last := logs[|logs| - 1];
      RealSum(logs[..|logs| - 1], choose, column) + if choose(last) then column(last) else 0.0
  }

  function Mark(has: Log -> bool): Log -> int {
    (l: Log) => if has(l) then 1 else 0
  }

  /** How many of the chosen logs have a property. */
  function Number(logs: seq<Log>, choose: Choice, has: Log -> bool): int {
    Sum(logs, choose, Mark(has))
  }

  /** A completed streamed request with a first token. */
  predicate Timed(l: Log) {
    l.status == "completed" && l.stream && l.ttft > 0
  }

  /** One that went on to produce output after it. */
  predicate Measured(l: Log) {
    Timed(l) && l.duration > l.ttft && l.output > 0
  }

  /** Output tokens per second after the first token. */
  function Speed(l: Log): real {
    if Measured(l) then 1000.0 * l.output as real / (l.duration - l.ttft) as real else 0.0
  }

  /** Column by column: the logs counted, their outcomes, their tokens, their times. */
  ghost predicate Measures(m: Metrics, logs: seq<Log>, choose: Choice) {
    && m.requests == Sum(logs, choose, (l: Log) => 1)
    && MeasuresOutcomes(m, logs, choose) && MeasuresTokens(m, logs, choose) && MeasuresTimes(m, logs, choose)
  }

  ghost predicate MeasuresOutcomes(m: Metrics, logs: seq<Log>, choose: Choice) {
    && m.success == Number(logs, choose, (l: Log) => l.status == "completed")
    && m.errors == Number(logs, choose, (l: Log) => l.status == "error")
    && m.processing == Number(logs, choose, (l: Log) => l.status == "processing")
  }

  ghost predicate MeasuresTokens(m: Metrics, logs: seq<Log>, choose: Choice) {
    && m.input == Sum(logs, choose, (l: Log) => l.input)
    && m.output == Sum(logs, choose, (l: Log) => l.output)
    && m.reasoning == Sum(logs, choose, (l: Log) => l.reasoning)
    && m.cacheRead == Sum(logs, choose, (l: Log) => l.cacheRead)
    && m.cacheWrite == Sum(logs, choose, (l: Log) => l.cacheWrite)
    && m.total == Sum(logs, choose, (l: Log) => l.total)
  }

  ghost predicate MeasuresTimes(m: Metrics, logs: seq<Log>, choose: Choice) {
    && m.ttftSum == Sum(logs, choose, (l: Log) => if Timed(l) then l.ttft else 0)
    && m.ttftSamples == Number(logs, choose, Timed)
    && m.tpsSum == RealSum(logs, choose, Speed)
    && m.tpsSamples == Number(logs, choose, Measured)
  }

  // ---------------------------------------------------------------- totals are column sums

  /** A column that adds up. */
  ghost predicate Additive(get: Metrics -> int) {
    get(ZERO) == 0 && forall a, b {:trigger Plus(a, b)} :: get(Plus(a, b)) == get(a) + get(b)
  }

  /** What each log contributes to a column. */
  ghost predicate Reads(get: Metrics -> int, part: Part, choose: Choice, column: Log -> int) {
    forall l {:trigger part(l)} :: get(part(l)) == if choose(l) then column(l) else 0
  }

  lemma {:induction false} TotalColumn(
    logs: seq<Log>, part: Part, choose: Choice, get: Metrics -> int, column: Log -> int)
    requires Additive(get) && Reads(get, part, choose, column)
    ensures get(Total(logs, part)) == Sum(logs, choose, column)
    decreases |logs|
  {
    if logs != [] {
      TotalColumn(logs[..|logs| - 1], part, choose, get, column);
    }
  }

  lemma {:induction false} TotalSpeed(logs: seq<Log>, part: Part, choose: Choice)
    requires forall l {:trigger part(l)} :: part(l).tpsSum == if choose(l) then Speed(l) else 0.0
    ensures Total(logs, part).tpsSum == RealSum(logs, choose, Speed)
    decreases |logs|
  {
    if logs != [] {
      TotalSpeed(logs[..|logs| - 1], part, choose);
    }
  }

  /** Counting every chosen log at what it contributes. */
  function Chosen(choose: Choice): Part {
    (l: Log) => if choose(l) then Contribution(l) else ZERO
  }

  lemma OutcomesMeasured(logs: seq<Log>, choose: Choice)
    ensures Total(logs, Chosen(choose)).requests == Sum(logs, choose, (l: Log) => 1)
    ensures MeasuresOutcomes(Total(logs, Chosen(choose)), logs, choose)
  {
    var part := Chosen(choose);
    TotalColumn(logs, part, choose, (m: Metrics) => m.requests, (l: Log) => 1);
    TotalColumn(logs, part, choose, (m: Metrics) => m.success, Mark((l: Log) => l.status == "completed"));
    TotalColumn(logs, part, choose, (m: Metrics) => m.errors, Mark((l: Log) => l.status == "error"));
    TotalColumn(logs, part, choose, (m: Metrics) => m.processing, Mark((l: Log) => l.status == "processing"));
  }

  lemma TokensMeasured(logs: seq<Log>, choose: Choice)
    ensures MeasuresTokens(Total(logs, Chosen(choose)), logs, choose)
  {
    var part := Chosen(choose);
    TotalColumn(logs, part, choose, (m: Metrics) => m.input, (l: Log) => l.input);
    TotalColumn(logs, part, choose, (m: Metrics) => m.output, (l: Log) => l.output);
    TotalColumn(logs, part, choose, (m: Metrics) => m.reasoning, (l: Log) => l.reasoning);
    TotalColumn(logs, part, choose, (m: Metrics) => m.cacheRead, (l: Log) => l.cacheRead);
    TotalColumn(logs, part, choose, (m: Metrics) => m.cacheWrite, (l: Log) => l.cacheWrite);
    TotalColumn(logs, part, choose, (m: Metrics) => m.total, (l: Log) => l.total);
  }

  lemma TimesMeasured(logs: seq<Log>, choose: Choice)
    ensures MeasuresTimes(Total(logs, Chosen(choose)), logs, choose)
  {
    var part := Chosen(choose);
    TotalColumn(logs, part, choose, (m: Metrics) => m.ttftSum, (l: Log) => if Timed(l) then l.ttft else 0);
    TotalColumn(logs, part, choose, (m: Metrics) => m.ttftSamples, Mark(Timed));
    TotalSpeed(logs, part, choose);
    TotalColumn(logs, part, choose, (m: Metrics) => m.tpsSamples, Mark(Measured));
  }

  /** A total of contributions is, column by column, the sum over the logs it is about. */
  lemma TotalMeasures(logs: seq<Log>, choose: Choice)
    ensures Measures(Total(logs, Chosen(choose)), logs, choose)
  {
    OutcomesMeasured(logs, choose);
    TokensMeasured(logs, choose);
    TimesMeasured(logs, choose);
  }
}

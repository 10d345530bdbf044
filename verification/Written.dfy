/** The history of logs read off the statements themselves, and what the dashboard shows as sums
    over it, column by column. */
module Written {
  import opened Metrics
  import opened Columns
  import opened DashboardHistory
  import opened DashboardReader
  import opened DashboardAnswer
  import Seqs

  // ---------------------------------------------------------------- the logs that were written

  /** A log that came in under an identifier: before step `from`, at the values `first`. The
      identifier is 0 when nothing can reach the log any more. */
  datatype Entry = Entry(id: int, from: nat, first: Log)

  /** No deletion of the identifier in the steps from `from` on, before `n`. */
  ghost predicate Alive(run: seq<Step>, e: Entry, n: nat)
    requires n <= |run|
  {
    e.id > 0 && forall k :: e.from <= k < n && run[k].Delete? ==> e.id !in run[k].ids
  }

  /** The values of the last update of the log before step `n`; the time of its creation stays. */
  ghost function Value(run: seq<Step>, e: Entry, n: nat): Log
    requires n <= |run|
  {
    if n <= e.from then e.first
    else
      var before, step := Value(run, e, n - 1), run[n - 1];
      if step.Update? && step.id == e.id && Alive(run, e, n - 1) then step.log.(createdAt := before.createdAt) else before
  }

  /** The identifier under which a log of the starting state is stored, or 0. */
  ghost function Owner(s: State, i: nat): int {
    if exists id :: id in s.place && s.place[id] == i then
      var id :| id in s.place && s.place[id] == i;
      id
    else 0
  }

  /** The logs there at the start, then one for each insertion. */
  ghost function Entries(s: State, run: seq<Step>, n: nat): seq<Entry>
    requires n <= |run|
  {
    if n == 0 then seq(|s.history|, i requires 0 <= i < |s.history| => Entry(Owner(s, i), 0, s.history[i]))
    else
      Entries(s, run, n - 1)
      + match run[n - 1] case Insert(id, log, now) => [Entry(id, n, Normal(log, now))] case _ => []
  }

  /** Each log ever inserted, at the values of its last update. */
  ghost function LogsOf(s: State, run: seq<Step>): seq<Log> {
    var es := Entries(s, run, |run|);
    seq(|es|, i requires 0 <= i < |es| => Value(run, es[i], |run|))
  }

  /** Blank fields are filled in on insertion, the others kept. */
  lemma NormalFillsIn(log: Log, now: int)
    ensures Normal(log, now).(createdAt := log.createdAt, status := log.status) == log
    ensures log.createdAt > 0 ==> Normal(log, now).createdAt == log.createdAt
    ensures log.createdAt <= 0 ==> Normal(log, now).createdAt == now
    ensures log.status != "" ==> Normal(log, now).status == log.status
    ensures log.status == "" ==> Normal(log, now).status == "processing"
  {
  }

  // ---------------------------------------------------------------- the history is these logs

  /** Before step `n` the state's history holds the logs written so far, and the stored ones are
      those that no deletion reached. */
  ghost predicate Matches(es: seq<Entry>, run: seq<Step>, n: nat, s: State)
    requires n <= |run|
  {
    && |s.history| == |es|
    && (forall i :: 0 <= i < |es| ==> MatchesAt(es[i], run, n, s, i))
  }

  ghost predicate MatchesAt(e: Entry, run: seq<Step>, n: nat, s: State, i: nat)
    requires n <= |run|
  {
    && i < |s.history| && e.from <= n
    && s.history[i] == Value(run, e, n)
    && (forall id :: id in s.rows && id in s.place && s.place[id] == i ==> e.id == id)
    && (Alive(run, e, n) <==> e.id in s.rows && e.id in s.place && s.place[e.id] == i)
  }

  lemma OwnerIs(s: State, i: nat)
    requires Exact(s)
    ensures forall id :: id in s.rows && s.place[id] == i ==> Owner(s, i) == id
    ensures Owner(s, i) > 0 <==> Owner(s, i) in s.rows && s.place[Owner(s, i)] == i
  {
  }

  lemma StartMatches(s: State, run: seq<Step>)
    requires Exact(s)
    ensures Matches(Entries(s, run, 0), run, 0, s)
  {
    forall i | 0 <= i < |s.history| ensures MatchesAt(Entries(s, run, 0)[i], run, 0, s, i) {
      OwnerIs(s, i);
    }
  }

  lemma AliveNext(run: seq<Step>, e: Entry, n: nat)
    requires n < |run| && e.from <= n
    ensures Alive(run, e, n + 1) <==> Alive(run, e, n) && !(run[n].Delete? && e.id in run[n].ids)
  {
  }

  lemma InsertKeepsAt(e: Entry, run: seq<Step>, n: nat, s: State, i: nat)
    requires n < |run| && run[n].Insert? && Exact(s) && Enabled(s, run[n]) && MatchesAt(e, run, n, s, i)
    ensures MatchesAt(e, run, n + 1, Apply(s, run[n]), i)
  {
    AliveNext(run, e, n);
  }

  lemma InsertAdds(run: seq<Step>, n: nat, s: State)
    requires n < |run| && run[n].Insert? && Exact(s) && Enabled(s, run[n])
    ensures MatchesAt(Entry(run[n].id, n + 1, Normal(run[n].log, run[n].now)), run, n + 1, Apply(s, run[n]), |s.history|)
  {
  }

  lemma UpdateKeepsAt(e: Entry, run: seq<Step>, n: nat, s: State, i: nat)
    requires n < |run| && run[n].Update? && Exact(s) && MatchesAt(e, run, n, s, i)
    ensures MatchesAt(e, run, n + 1, Apply(s, run[n]), i)
  {
    AliveNext(run, e, n);
  }

  lemma DeleteKeepsAt(e: Entry, run: seq<Step>, n: nat, s: State, i: nat)
    requires n < |run| && run[n].Delete? && Exact(s) && MatchesAt(e, run, n, s, i)
    ensures MatchesAt(e, run, n + 1, Apply(s, run[n]), i)
  {
    AliveNext(run, e, n);
  }

  lemma StepKeepsAt(e: Entry, run: seq<Step>, n: nat, s: State, i: nat)
    requires n < |run| && Exact(s) && Enabled(s, run[n]) && MatchesAt(e, run, n, s, i)
    ensures MatchesAt(e, run, n + 1, Apply(s, run[n]), i)
  {
    match run[n]
    case Insert(_, _, _) => InsertKeepsAt(e, run, n, s, i);
    case Update(_, _) => UpdateKeepsAt(e, run, n, s, i);
    case Delete(_) => DeleteKeepsAt(e, run, n, s, i);
  }

  lemma StepKeepsMatches(es: seq<Entry>, run: seq<Step>, n: nat, s: State)
    requires n < |run| && Exact(s) && Enabled(s, run[n]) && Matches(es, run, n, s)
    ensures run[n].Insert? ==>
      Matches(es + [Entry(run[n].id, n + 1, Normal(run[n].log, run[n].now))], run, n + 1, Apply(s, run[n]))
    ensures !run[n].Insert? ==> Matches(es, run, n + 1, Apply(s, run[n]))
  {
    forall i | 0 <= i < |es| ensures MatchesAt(es[i], run, n + 1, Apply(s, run[n]), i) {
      StepKeepsAt(es[i], run, n, s, i);
    }
    if run[n].Insert? {
      InsertAdds(run, n, s);
    }
  }

  lemma {:induction false} AlwaysMatches(s: State, run: seq<Step>, n: nat)
    requires Exact(s) && n <= |run| && Runs(s, run[..n])
    ensures Matches(Entries(s, run, n), run, n, After(s, run[..n]))
    decreases n
  {
    if n == 0 {
      StartMatches(s, run);
    } else {
      assert run[..n][..n - 1] == run[..n - 1];
      AlwaysMatches(s, run, n - 1);
      AlwaysExact(s, run[..n - 1]);
      StepKeepsMatches(Entries(s, run, n - 1), run, n - 1, After(s, run[..n - 1]));
      assert Entries(s, run, n - 1) + [] == Entries(s, run, n - 1);
    }
  }

  /** After any run the history is what the statements wrote: each log inserted, at the values of
      its last update. */
  lemma HistoryIsWritten(s: State, run: seq<Step>)
    requires Exact(s) && Runs(s, run)
    ensures After(s, run).history == LogsOf(s, run)
  {
    assert run[..|run|] == run;
    AlwaysMatches(s, run, |run|);
    var es := Entries(s, run, |run|);
    forall i | 0 <= i < |es| ensures After(s, run).history[i] == LogsOf(s, run)[i] {
      assert MatchesAt(es[i], run, |run|, After(s, run), i);
    }
  }

  // ---------------------------------------------------------------- rows, column by column

  /** A log's hour is the last full hour before it. */
  lemma HourOfIs(createdAt: int)
    requires createdAt >= 0
    ensures HourOf(createdAt) <= createdAt < HourOf(createdAt) + HOUR && HourOf(createdAt) % HOUR == 0
  {
  }

  function InHour(key: Key): Choice {
    (l: Log) => HourOf(l.createdAt) == key.hour && l.model == key.model && l.channel == key.channel
  }

  /** In every reachable state each row is, column by column, the sum over the logs of its hour, model
      and channel that the statements wrote. */
  lemma RowsAreColumns(s: State, run: seq<Step>, key: Key)
    requires Exact(s) && Runs(s, run)
    ensures Measures(Row(After(s, run).hours, key), LogsOf(s, run), InHour(key))
  {
    AlwaysExact(s, run);
    HistoryIsWritten(s, run);
    var logs := LogsOf(s, run);
    assert Row(After(s, run).hours, key) == Total(logs, InRow(key));
    TotalAlike(logs, InRow(key), Chosen(InHour(key)));
    TotalMeasures(logs, InHour(key));
  }

  // ---------------------------------------------------------------- the answer, column by column

  /** The hours an answer reaches. */
  predicate InReach(l: Log, now: int) {
    ActivityStart(now) <= HourOf(l.createdAt) <= Floor(now, HOUR)
  }

  function InRange(b: Bounds, now: int): Choice {
    (l: Log) => InReach(l, now) && b.since <= HourOf(l.createdAt)
  }

  function InPoint(b: Bounds, i: nat, now: int): Choice {
    (l: Log) => InReach(l, now) && b.since + i * b.step <= HourOf(l.createdAt) < b.since + (i + 1) * b.step
  }

  function ByChannel(b: Bounds, channel: string, now: int): Choice {
    (l: Log) => InReach(l, now) && b.since <= HourOf(l.createdAt) && l.channel == channel
  }

  function ByModel(b: Bounds, model: string, canonical: string -> string, now: int): Choice {
    (l: Log) => InReach(l, now) && b.since <= HourOf(l.createdAt) && canonical(l.model) == model
  }

  function ByDay(d: nat, now: int): Choice {
    (l: Log) =>
      InReach(l, now) && ActivityStart(now) + d * DAY <= HourOf(l.createdAt) < ActivityStart(now) + (d + 1) * DAY
  }

  lemma ShownMeasures(logs: seq<Log>, choose: Key -> bool, now: int, pick: Choice)
    requires forall l {:trigger pick(l)} :: pick(l) <==> InReach(l, now) && choose(KeyOf(l))
    ensures Measures(Total(logs, Shown(choose, now)), logs, pick)
  {
    forall i | 0 <= i < |logs| ensures Shown(choose, now)(logs[i]) == Chosen(pick)(logs[i]) {
      assert pick(logs[i]) <==> InReach(logs[i], now) && choose(KeyOf(logs[i]));
    }
    TotalAlike(logs, Shown(choose, now), Chosen(pick));
    TotalMeasures(logs, pick);
  }

  /** What the dashboard shows after any run is, column by column, a sum over the logs that the
      statements wrote: the summary over the range, each point over its bucket, each channel and
      model over its own logs. */
  lemma AnswerIsWritten(
    s: State, run: seq<Step>, rows: seq<HourRow>, period: string, now: int, known: set<string>,
    canonical: string -> string, i: nat, name: string)
    requires Exact(s) && Runs(s, run) && Selects(rows, After(s, run).hours, now) && DashboardBounds(period, now).Ok?
    requires i < DashboardBounds(period, now).value.count
    ensures var b, logs := DashboardBounds(period, now).value, LogsOf(s, run);
      b.step > 0 &&
      var t := AddRows(Blank(b, known), rows, b, now, canonical);
      && Measures(Summary()(t), logs, InRange(b, now))
      && Measures(Point(i)(t), logs, InPoint(b, i, now))
      && Measures(Channel(name)(t), logs, ByChannel(b, name, now))
      && Measures(Model(name)(t), logs, ByModel(b, name, canonical, now))
  {
    var b, logs := DashboardBounds(period, now).value, LogsOf(s, run);
    AlwaysExact(s, run);
    HistoryIsWritten(s, run);
    AnswerIsHistory(After(s, run), rows, period, now, known, canonical, i, name);
    ShownMeasures(logs, SinceStart(b), now, InRange(b, now));
    ShownMeasures(logs, InBucket(b, i), now, InPoint(b, i, now));
    ShownMeasures(logs, OfChannel(b, name), now, ByChannel(b, name, now));
    ShownMeasures(logs, OfModel(b, name, canonical), now, ByModel(b, name, canonical, now));
  }

  /** Each day of the activity calendar counts the logs written for that day. */
  lemma ActivityIsWritten(
    s: State, run: seq<Step>, rows: seq<HourRow>, b: Bounds, now: int, known: set<string>,
    canonical: string -> string, d: nat)
    requires Exact(s) && Runs(s, run) && Selects(rows, After(s, run).hours, now) && b.step > 0 && d < 180
    ensures var t := AddRows(Blank(b, known), rows, b, now, canonical);
      |t.activity| == 180 && t.activity[d] == Number(LogsOf(s, run), ByDay(d, now), (l: Log) => true)
  {
    AlwaysExact(s, run);
    HistoryIsWritten(s, run);
    ActivityIsHistory(After(s, run), rows, b, now, known, canonical, d);
    ShownMeasures(LogsOf(s, run), OnDay(now, d), now, ByDay(d, now));
    NumberOfAll(LogsOf(s, run), ByDay(d, now));
  }

  lemma {:induction false} NumberOfAll(logs: seq<Log>, choose: Choice)
    ensures Number(logs, choose, (l: Log) => true) == Sum(logs, choose, (l: Log) => 1)
    decreases |logs|
  {
    if logs != [] {
      NumberOfAll(logs[..|logs| - 1], choose);
    }
  }
}

/** Reading the dashboard: hourly rows are selected, put into calendar buckets, and summed up
    per channel and per model. */
module DashboardReader {
  import opened Metrics
  import opened DashboardHistory
  import Sums
  import Ordered

  const DAY := 24 * HOUR
  const ACTIVITY_DAYS := 180

  datatype Bounds = Bounds(since: int, step: int, count: nat)

  datatype Result<T> = Ok(value: T) | UnknownRange

  function Floor(t: int, unit: int): (r: int)
    requires unit > 0
    ensures r <= t < r + unit
  {
    t - t % unit
  }

  function DaysOf(period: string): nat {
    if period == "7d" then 7 else if period == "30d" then 30 else if period == "90d" then 90 else 0
  }

  /** A range ends with the bucket that is under way and spans one day or its days. */
  function DashboardBounds(period: string, now: int): (r: Result<Bounds>)
    ensures r.Ok? <==> period in {"24h", "7d", "30d", "90d"}
    ensures r.Ok? ==>
      && r.value.step > 0 && r.value.since + r.value.count * r.value.step == Floor(now, r.value.step) + r.value.step
      && r.value.count * r.value.step == (if period == "24h" then 1 else DaysOf(period)) * DAY
  {
    if period == "24h" then Ok(Bounds(Floor(now, HOUR) - 23 * HOUR, HOUR, 24))
    else if DaysOf(period) == 0 then UnknownRange
    else Ok(Bounds(Floor(now, DAY) + (1 - DaysOf(period)) * DAY, DAY, DaysOf(period)))
  }

  function ActivityStart(now: int): int {
    Floor(now, DAY) - (ACTIVITY_DAYS - 1) * DAY
  }

  datatype HourRow = HourRow(key: Key, metrics: Metrics)

  /** What the query reaches. */
  predicate Reached(hours: map<Key, Metrics>, key: Key, now: int) {
    key in hours && ActivityStart(now) <= key.hour <= Floor(now, HOUR) && hours[key].requests > 0
  }

  /** The rows of the query's answer, in some order. */
  ghost predicate Selects(rows: seq<HourRow>, hours: map<Key, Metrics>, now: int) {
    && (forall i :: 0 <= i < |rows| ==> Reached(hours, rows[i].key, now) && rows[i].metrics == hours[rows[i].key])
    && (forall i, j :: 0 <= i < j < |rows| ==> rows[i].key != rows[j].key)
    && (forall key :: Reached(hours, key, now) ==> HourRow(key, hours[key]) in rows)
  }

  // ---------------------------------------------------------------- buckets

  /** Every row from `since` on falls into a bucket of the timeline, the one whose time span
      holds its hour, for every range and every moment: the range guard never fires. */
  lemma PointIndexIsValid(period: string, now: int, hour: int)
    requires DashboardBounds(period, now).Ok?
    requires DashboardBounds(period, now).value.since <= hour <= Floor(now, HOUR)
    ensures var b := DashboardBounds(period, now).value;
      var i := Quotient(hour - b.since, b.step);
      0 <= i < b.count && b.since + i * b.step <= hour < b.since + (i + 1) * b.step
  {
  }

  lemma HoursLieInTheirDay(now: int)
    ensures Floor(now, DAY) <= Floor(now, HOUR) < Floor(now, DAY) + DAY
  {
  }

  lemma ActivityIndexIsValid(now: int, hour: int)
    requires ActivityStart(now) <= hour <= Floor(now, HOUR)
    ensures 0 <= Quotient(hour - ActivityStart(now), DAY) < ACTIVITY_DAYS
  {
    HoursLieInTheirDay(now);
  }

  /** The activity calendar reaches back further than every range. */
  lemma ActivityCoversRange(period: string, now: int)
    requires DashboardBounds(period, now).Ok?
    ensures ActivityStart(now) <= DashboardBounds(period, now).value.since
  {
    HoursLieInTheirDay(now);
  }

  // ---------------------------------------------------------------- accumulation

  /** The tallies of one answer. Each carries the whole vector of metrics. */
  datatype Tallies = Tallies(
    timeline: seq<Metrics>, activity: seq<int>, summary: Metrics,
    models: map<string, Metrics>, channels: map<string, Metrics>)

  function Adding(): Sums.Adder<Metrics> {
    Sums.Adder(Plus, ZERO)
  }

  function Index(hour: int, start: int, step: int, count: nat): int
    requires step > 0
  {
    var i := Quotient(hour - start, step);
    if 0 <= i < count then i else -1
  }

  function AddActivity(activity: seq<int>, r: HourRow, now: int): seq<int> {
    var i := Index(r.key.hour, ActivityStart(now), DAY, |activity|);
    if i < 0 then activity else activity[i := activity[i] + r.metrics.requests]
  }

  function Enter(m: map<string, Metrics>, name: string, d: Metrics): map<string, Metrics> {
    m[name := Plus(Sums.At(Adding(), m, name), d)]
  }

  function AddRow(t: Tallies, r: HourRow, b: Bounds, now: int, canonical: string -> string): Tallies
    requires b.step > 0
  {
    var t' := t.(activity := AddActivity(t.activity, r, now));
    var i := Index(r.key.hour, b.since, b.step, |t.timeline|);
    if r.key.hour < b.since || i < 0 then t'
    else
      t'.(timeline := t.timeline[i := Plus(t.timeline[i], r.metrics)],
          summary := Plus(t.summary, r.metrics),
          models := Enter(t.models, canonical(r.key.model), r.metrics),
          channels := Enter(t.channels, r.key.channel, r.metrics))
  }

  function AddRows(t: Tallies, rows: seq<HourRow>, b: Bounds, now: int, canonical: string -> string): Tallies
    requires b.step > 0
    decreases |rows|
  {
    if rows == [] then t
    else AddRow(AddRows(t, rows[..|rows| - 1], b, now, canonical), rows[|rows| - 1], b, now, canonical)
  }

  /** Known models are listed even without requests. */
  function Blank(b: Bounds, known: set<string>): Tallies {
    Tallies(seq(b.count, _ => ZERO), seq(ACTIVITY_DAYS, _ => 0), ZERO, map m | m in known :: ZERO, map[])
  }

  method Select(hours: map<Key, Metrics>, now: int) returns (rows: seq<HourRow>)
    ensures Selects(rows, hours, now)
  {
    rows := [];
    var left := hours.Keys;
    while left != {}
      invariant left <= hours.Keys
      invariant forall i :: 0 <= i < |rows| ==>
        Reached(hours, rows[i].key, now) && rows[i].metrics == hours[rows[i].key] && rows[i].key !in left
      invariant forall i, j :: 0 <= i < j < |rows| ==> rows[i].key != rows[j].key
      invariant forall key :: key !in left && Reached(hours, key, now) ==> HourRow(key, hours[key]) in rows
      decreases |left|
    {
      var key := Ordered.Pick(left);
      if Reached(hours, key, now) {
        rows := rows + [HourRow(key, hours[key])];
      }
      left := left - {key};
    }
  }

  method Accumulate(selected: seq<HourRow>, b: Bounds, now: int, known: set<string>, canonical: string -> string)
    returns (t: Tallies)
    requires b.step > 0
    ensures t == AddRows(Blank(b, known), selected, b, now, canonical)
  {
    t := Blank(b, known);
    for n := 0 to |selected|
      invariant t == AddRows(Blank(b, known), selected[..n], b, now, canonical)
    {
      assert selected[..n + 1][..n] == selected[..n];
      t := AccumulateRow(t, selected[n], b, now, canonical);
    }
    assert selected[..|selected|] == selected;
  }

  method AccumulateRow(before: Tallies, r: HourRow, b: Bounds, now: int, canonical: string -> string) returns (t: Tallies)
    requires b.step > 0
    ensures t == AddRow(before, r, b, now, canonical)
  {
    t := before.(activity := AddActivity(before.activity, r, now));
    if r.key.hour < b.since {
      return;
    }
    var i := Quotient(r.key.hour - b.since, b.step);
    if i < 0 || i >= |t.timeline| {
      return;
    }
    t := t.(timeline := t.timeline[i := Plus(t.timeline[i], r.metrics)],
            summary := Plus(t.summary, r.metrics),
            models := Enter(t.models, canonical(r.key.model), r.metrics),
            channels := Enter(t.channels, r.key.channel, r.metrics));
  }

  method Dashboard(tables: Tables, period: string, now: int, known: set<string>, canonical: string -> string)
    returns (result: Result<Tallies>, ghost rows: seq<HourRow>)
    ensures result.Ok? <==> DashboardBounds(if period == "" then "30d" else period, now).Ok?
    ensures result.Ok? ==> Selects(rows, tables.hours, now)
    ensures result.Ok? ==>
      var b := DashboardBounds(if period == "" then "30d" else period, now).value;
      b.step > 0 && result.value == AddRows(Blank(b, known), rows, b, now, canonical)
  {
    var bounds := DashboardBounds(if period == "" then "30d" else period, now);
    if bounds.UnknownRange? {
      return UnknownRange, [];
    }
    var selected := Select(tables.hours, now);
    var t := Accumulate(selected, bounds.value, now, known, canonical);
    return Ok(t), selected;
  }

  // ---------------------------------------------------------------- totals agree

  lemma PlusIsLawful()
    ensures Sums.Lawful(Adding())
  {
  }

  /** The timeline, the channels and the models each add up to the summary. */
  ghost predicate Agree(t: Tallies) {
    && Sums.OfSeq(Adding(), t.timeline) == t.summary
    && Sums.OfMap(Adding(), t.models) == t.summary
    && Sums.OfMap(Adding(), t.channels) == t.summary
  }

  lemma AddRowKeepsAgreement(t: Tallies, r: HourRow, b: Bounds, now: int, canonical: string -> string)
    requires b.step > 0 && Agree(t)
    ensures Agree(AddRow(t, r, b, now, canonical))
  {
    PlusIsLawful();
    var i := Index(r.key.hour, b.since, b.step, |t.timeline|);
    if r.key.hour >= b.since && i >= 0 {
      Sums.AddInSeq(Adding(), t.timeline, i, r.metrics);
      Sums.AddInMap(Adding(), t.models, canonical(r.key.model), r.metrics);
      Sums.AddInMap(Adding(), t.channels, r.key.channel, r.metrics);
    }
  }

  lemma BlankAgrees(b: Bounds, known: set<string>)
    ensures Agree(Blank(b, known))
  {
    PlusIsLawful();
    Sums.Zeros(Adding(), b.count, known);
  }

  /** Whatever the rows, the sums over the timeline, over the channels and over the models
      before the list is cut all equal the summary, in every metric. */
  lemma {:induction false} TotalsAgree(
    rows: seq<HourRow>, b: Bounds, now: int, known: set<string>, canonical: string -> string)
    requires b.step > 0
    ensures Agree(AddRows(Blank(b, known), rows, b, now, canonical))
    decreases |rows|
  {
    if rows == [] {
      BlankAgrees(b, known);
    } else {
      var front := rows[..|rows| - 1];
      TotalsAgree(front, b, now, known, canonical);
      AddRowKeepsAgreement(AddRows(Blank(b, known), front, b, now, canonical), rows[|rows| - 1], b, now, canonical);
    }
  }
}

/** What the dashboard shows, traced back through the hourly rows to the logs ever written. */
module DashboardAnswer {
  import opened Metrics
  import opened DashboardHistory
  import opened DashboardReader
  import Sums

  // ---------------------------------------------------------------- from tallies to rows

  function Kept(r: HourRow, choose: Key -> bool): Metrics {
    if choose(r.key) then r.metrics else ZERO
  }

  function RowSum(rows: seq<HourRow>, choose: Key -> bool): Metrics
    decreases |rows|
  {
    if rows == [] then ZERO else Plus(RowSum(rows[..|rows| - 1], choose), Kept(rows[|rows| - 1], choose))
  }

  /** One displayed number vector of an answer. */
  type Reading = Tallies -> Metrics

  predicate Fits(r: HourRow, now: int) {
    ActivityStart(now) <= r.key.hour <= Floor(now, HOUR)
  }

  /** A reading grows by exactly the chosen rows. */
  ghost predicate Follows(look: Reading, choose: Key -> bool, b: Bounds, now: int, canonical: string -> string)
    requires b.step > 0
  {
    forall t: Tallies, r: HourRow {:trigger AddRow(t, r, b, now, canonical)} :: Fits(r, now) && |t.timeline| == b.count ==>
      look(AddRow(t, r, b, now, canonical)) == Plus(look(t), Kept(r, choose))
  }

  lemma {:induction false} ReadingIsRowSum(
    look: Reading, choose: Key -> bool, t: Tallies, rows: seq<HourRow>, b: Bounds, now: int, canonical: string -> string)
    requires b.step > 0 && Follows(look, choose, b, now, canonical) && |t.timeline| == b.count && look(t) == ZERO
    requires forall i :: 0 <= i < |rows| ==> Fits(rows[i], now)
    ensures |AddRows(t, rows, b, now, canonical).timeline| == b.count
    ensures look(AddRows(t, rows, b, now, canonical)) == RowSum(rows, choose)
    decreases |rows|
  {
    if rows != [] {
      ReadingIsRowSum(look, choose, t, rows[..|rows| - 1], b, now, canonical);
      var before := AddRows(t, rows[..|rows| - 1], b, now, canonical);
      assert Fits(rows[|rows| - 1], now);
      SameLength(before, rows[|rows| - 1], b, now, canonical);
    }
  }

  lemma SameLength(t: Tallies, r: HourRow, b: Bounds, now: int, canonical: string -> string)
    requires b.step > 0
    ensures |AddRow(t, r, b, now, canonical).timeline| == |t.timeline|
  {
  }

  // ---------------------------------------------------------------- the readings

  function SinceStart(b: Bounds): Key -> bool {
    (key: Key) => b.since <= key.hour
  }

  function InBucket(b: Bounds, i: nat): Key -> bool {
    (key: Key) => b.since + i * b.step <= key.hour < b.since + (i + 1) * b.step
  }

  function OfChannel(b: Bounds, channel: string): Key -> bool {
    (key: Key) => b.since <= key.hour && key.channel == channel
  }

  function OfModel(b: Bounds, model: string, canonical: string -> string): Key -> bool {
    (key: Key) => b.since <= key.hour && canonical(key.model) == model
  }

  function Summary(): Reading {
    (t: Tallies) => t.summary
  }

  function Point(i: nat): Reading {
    (t: Tallies) => if i < |t.timeline| then t.timeline[i] else ZERO
  }

  function Channel(channel: string): Reading {
    (t: Tallies) => Sums.At(Adding(), t.channels, channel)
  }

  function Model(model: string): Reading {
    (t: Tallies) => Sums.At(Adding(), t.models, model)
  }

  /** What one row adds, for rows the query can select: the guards only leave out older rows. */
  lemma RowEnters(t: Tallies, r: HourRow, period: string, now: int, canonical: string -> string)
    requires DashboardBounds(period, now).Ok? && Fits(r, now)
    requires |t.timeline| == DashboardBounds(period, now).value.count
    ensures var b := DashboardBounds(period, now).value;
      b.step > 0 &&
      var t' := AddRow(t, r, b, now, canonical);
      if r.key.hour < b.since then t' == t.(activity := t'.activity)
      else
        var i := Quotient(r.key.hour - b.since, b.step);
        && 0 <= i < b.count
        && t'.summary == Plus(t.summary, r.metrics)
        && t'.timeline == t.timeline[i := Plus(t.timeline[i], r.metrics)]
        && t'.models == Enter(t.models, canonical(r.key.model), r.metrics)
        && t'.channels == Enter(t.channels, r.key.channel, r.metrics)
  {
    var b := DashboardBounds(period, now).value;
    if r.key.hour >= b.since {
      PointIndexIsValid(period, now, r.key.hour);
    }
  }

  lemma OneBucket(since: int, step: int, hour: int, i: nat)
    requires step > 0 && since <= hour
    ensures since + i * step <= hour < since + (i + 1) * step <==> Quotient(hour - since, step) == i
  {
    var q, r := (hour - since) / step, (hour - since) % step;
    assert hour - since == q * step + r;
    if q < i {
      assert (q + 1) * step <= i * step;
    } else if q > i {
      assert (i + 1) * step <= q * step;
    }
  }

  lemma PointFollows(period: string, now: int, i: nat, canonical: string -> string)
    requires DashboardBounds(period, now).Ok? && i < DashboardBounds(period, now).value.count
    ensures var b := DashboardBounds(period, now).value;
      b.step > 0 && Follows(Point(i), InBucket(b, i), b, now, canonical)
  {
    var b := DashboardBounds(period, now).value;
    forall t: Tallies, r: HourRow | Fits(r, now) && |t.timeline| == b.count
      ensures Point(i)(AddRow(t, r, b, now, canonical)) == Plus(Point(i)(t), Kept(r, InBucket(b, i)))
    {
      RowEnters(t, r, period, now, canonical);
      PlusZero(t.timeline[i]);
      if r.key.hour < b.since {
        assert b.since <= b.since + i * b.step;
      } else {
        OneBucket(b.since, b.step, r.key.hour, i);
      }
    }
  }

  lemma SummaryFollows(period: string, now: int, canonical: string -> string)
    requires DashboardBounds(period, now).Ok?
    ensures var b := DashboardBounds(period, now).value;
      b.step > 0 && Follows(Summary(), SinceStart(b), b, now, canonical)
  {
    var b := DashboardBounds(period, now).value;
    forall t: Tallies, r: HourRow | Fits(r, now) && |t.timeline| == b.count
      ensures Summary()(AddRow(t, r, b, now, canonical)) == Plus(Summary()(t), Kept(r, SinceStart(b)))
    {
      RowEnters(t, r, period, now, canonical);
      PlusZero(t.summary);
    }
  }

  lemma EnterAt(m: map<string, Metrics>, name: string, d: Metrics, other: string)
    ensures Sums.At(Adding(), Enter(m, name, d), other) ==
            Plus(Sums.At(Adding(), m, other), if other == name then d else ZERO)
  {
    PlusZero(Sums.At(Adding(), m, other));
  }

  lemma ChannelFollows(period: string, now: int, channel: string, canonical: string -> string)
    requires DashboardBounds(period, now).Ok?
    ensures var b := DashboardBounds(period, now).value;
      b.step > 0 && Follows(Channel(channel), OfChannel(b, channel), b, now, canonical)
  {
    var b := DashboardBounds(period, now).value;
    forall t: Tallies, r: HourRow | Fits(r, now) && |t.timeline| == b.count
      ensures Channel(channel)(AddRow(t, r, b, now, canonical)) == Plus(Channel(channel)(t), Kept(r, OfChannel(b, channel)))
    {
      RowEnters(t, r, period, now, canonical);
      EnterAt(t.channels, r.key.channel, r.metrics, channel);
      PlusZero(Channel(channel)(t));
    }
  }

  lemma ModelFollows(period: string, now: int, model: string, canonical: string -> string)
    requires DashboardBounds(period, now).Ok?
    ensures var b := DashboardBounds(period, now).value;
      b.step > 0 && Follows(Model(model), OfModel(b, model, canonical), b, now, canonical)
  {
    var b := DashboardBounds(period, now).value;
    forall t: Tallies, r: HourRow | Fits(r, now) && |t.timeline| == b.count
      ensures Model(model)(AddRow(t, r, b, now, canonical)) == Plus(Model(model)(t), Kept(r, OfModel(b, model, canonical)))
    {
      RowEnters(t, r, period, now, canonical);
      EnterAt(t.models, canonical(r.key.model), r.metrics, model);
      PlusZero(Model(model)(t));
    }
  }

  // ---------------------------------------------------------------- from rows to logs

  lemma {:induction false} TotalSplits(logs: seq<Log>, whole: Part, p: Part, q: Part)
    requires forall l :: whole(l) == Plus(p(l), q(l))
    ensures Total(logs, whole) == Plus(Total(logs, p), Total(logs, q))
    decreases |logs|
  {
    if logs == [] {
      PlusZero(ZERO);
    } else {
      var front, last := logs[..|logs| - 1], logs[|logs| - 1];
      TotalSplits(front, whole, p, q);
      assert whole(last) == Plus(p(last), q(last));
      PlusPairs(Total(front, p), Total(front, q), p(last), q(last));
    }
  }

  lemma PlusPairs(a: Metrics, b: Metrics, c: Metrics, d: Metrics)
    ensures Plus(Plus(a, b), Plus(c, d)) == Plus(Plus(a, c), Plus(b, d))
  {
  }

  lemma {:induction false} TotalAlike(logs: seq<Log>, p: Part, q: Part)
    requires forall i :: 0 <= i < |logs| ==> p(logs[i]) == q(logs[i])
    ensures Total(logs, p) == Total(logs, q)
    decreases |logs|
  {
    if logs != [] {
      TotalAlike(logs[..|logs| - 1], p, q);
      assert p(logs[|logs| - 1]) == q(logs[|logs| - 1]);
    }
  }

  function HowMany(logs: seq<Log>, part: Part): int
    decreases |logs|
  {
    if logs == [] then 0 else HowMany(logs[..|logs| - 1], part) + part(logs[|logs| - 1]).requests
  }

  lemma {:induction false} RequestsAreCounted(logs: seq<Log>, part: Part)
    ensures Total(logs, part).requests == HowMany(logs, part)
    decreases |logs|
  {
    if logs != [] {
      RequestsAreCounted(logs[..|logs| - 1], part);
      PlusRequests(Total(logs[..|logs| - 1], part), part(logs[|logs| - 1]));
    }
  }

  lemma PlusRequests(a: Metrics, b: Metrics)
    ensures Plus(a, b).requests == a.requests + b.requests
  {
  }

  lemma {:induction false} MemberIsCounted(logs: seq<Log>, i: nat, part: Part)
    requires i < |logs| && part(logs[i]).requests > 0 && forall l :: part(l).requests >= 0
    ensures HowMany(logs, part) > 0
    decreases |logs|
  {
    var front := logs[..|logs| - 1];
    if i < |front| {
      MemberIsCounted(front, i, part);
    } else {
      NeverNegative(front, part);
    }
  }

  lemma {:induction false} NeverNegative(logs: seq<Log>, part: Part)
    requires forall l :: part(l).requests >= 0
    ensures HowMany(logs, part) >= 0
    decreases |logs|
  {
    if logs != [] {
      NeverNegative(logs[..|logs| - 1], part);
    }
  }

  predicate Listed(rows: seq<HourRow>, key: Key) {
    exists i :: 0 <= i < |rows| && rows[i].key == key
  }

  function InRows(rows: seq<HourRow>, choose: Key -> bool): Part {
    (l: Log) => if Listed(rows, KeyOf(l)) && choose(KeyOf(l)) then Contribution(l) else ZERO
  }

  function OneRow(r: HourRow, choose: Key -> bool): Part {
    (l: Log) => if KeyOf(l) == r.key && choose(r.key) then Contribution(l) else ZERO
  }

  lemma {:induction false} NothingAddsUp(logs: seq<Log>, part: Part)
    requires forall l :: part(l) == ZERO
    ensures Total(logs, part) == ZERO
    decreases |logs|
  {
    if logs != [] {
      NothingAddsUp(logs[..|logs| - 1], part);
      PlusZero(ZERO);
    }
  }

  lemma OneRowIsKept(r: HourRow, choose: Key -> bool, history: seq<Log>)
    requires r.metrics == Total(history, InRow(r.key))
    ensures Total(history, OneRow(r, choose)) == Kept(r, choose)
  {
    if choose(r.key) {
      TotalAlike(history, OneRow(r, choose), InRow(r.key));
    } else {
      NothingAddsUp(history, OneRow(r, choose));
    }
  }

  lemma ListedSplits(rows: seq<HourRow>, key: Key)
    requires rows != []
    ensures Listed(rows, key) <==> Listed(rows[..|rows| - 1], key) || rows[|rows| - 1].key == key
  {
  }

  lemma RowsSplit(rows: seq<HourRow>, choose: Key -> bool, l: Log)
    requires rows != [] && !Listed(rows[..|rows| - 1], rows[|rows| - 1].key)
    ensures InRows(rows, choose)(l) ==
            Plus(InRows(rows[..|rows| - 1], choose)(l), OneRow(rows[|rows| - 1], choose)(l))
  {
    var front, last := rows[..|rows| - 1], rows[|rows| - 1];
    ListedSplits(rows, KeyOf(l));
    EitherPart(Listed(front, KeyOf(l)), last.key == KeyOf(l), choose(KeyOf(l)), Contribution(l));
    InRowsAt(rows, choose, l);
    InRowsAt(front, choose, l);
    OneRowAt(last, choose, l);
  }

  lemma InRowsAt(rows: seq<HourRow>, choose: Key -> bool, l: Log)
    ensures InRows(rows, choose)(l) == if Listed(rows, KeyOf(l)) && choose(KeyOf(l)) then Contribution(l) else ZERO
  {
  }

  lemma OneRowAt(r: HourRow, choose: Key -> bool, l: Log)
    ensures OneRow(r, choose)(l) == if r.key == KeyOf(l) && choose(KeyOf(l)) then Contribution(l) else ZERO
  {
  }

  lemma EitherPart(before: bool, last: bool, chosen: bool, m: Metrics)
    requires !(before && last)
    ensures (if (before || last) && chosen then m else ZERO) ==
            Plus(if before && chosen then m else ZERO, if last && chosen then m else ZERO)
  {
  }

  /** Rows with different keys, each the total of its own logs, add up to the total of all
      their logs. */
  lemma {:induction false} RowsAddUp(rows: seq<HourRow>, choose: Key -> bool, history: seq<Log>)
    requires forall i, j :: 0 <= i < j < |rows| ==> rows[i].key != rows[j].key
    requires forall i :: 0 <= i < |rows| ==> rows[i].metrics == Total(history, InRow(rows[i].key))
    ensures RowSum(rows, choose) == Total(history, InRows(rows, choose))
    decreases |rows|
  {
    if rows == [] {
      forall l ensures InRows(rows, choose)(l) == ZERO {
        assert !Listed([], KeyOf(l));
      }
      NothingAddsUp(history, InRows(rows, choose));
    } else {
      var front, last := rows[..|rows| - 1], rows[|rows| - 1];
      RowsAddUp(front, choose, history);
      OneRowIsKept(last, choose, history);
      forall l ensures InRows(rows, choose)(l) == Plus(InRows(front, choose)(l), OneRow(last, choose)(l)) {
        RowsSplit(rows, choose, l);
      }
      TotalSplits(history, InRows(rows, choose), InRows(front, choose), OneRow(last, choose));
    }
  }

  /** The logs an answer at time `now` is about. */
  function Shown(choose: Key -> bool, now: int): Part {
    (l: Log) => if ActivityStart(now) <= HourOf(l.createdAt) <= Floor(now, HOUR) && choose(KeyOf(l))
                then Contribution(l) else ZERO
  }

  lemma SelectedAddUp(s: State, rows: seq<HourRow>, choose: Key -> bool, now: int)
    requires Exact(s) && Selects(rows, s.hours, now)
    ensures RowSum(rows, choose) == Total(s.history, Shown(choose, now))
  {
    forall i | 0 <= i < |rows| ensures rows[i].metrics == Total(s.history, InRow(rows[i].key)) {
      assert Reached(s.hours, rows[i].key, now);
      assert Row(s.hours, rows[i].key) == Total(s.history, InRow(rows[i].key));
    }
    RowsAddUp(rows, choose, s.history);
    forall i | 0 <= i < |s.history| ensures InRows(rows, choose)(s.history[i]) == Shown(choose, now)(s.history[i]) {
      LogIsSelected(s, rows, i, now);
    }
    TotalAlike(s.history, InRows(rows, choose), Shown(choose, now));
  }

  /** The filter on requests loses no log. */
  lemma LogIsSelected(s: State, rows: seq<HourRow>, i: nat, now: int)
    requires Exact(s) && Selects(rows, s.hours, now) && i < |s.history|
    ensures Listed(rows, KeyOf(s.history[i])) <==>
            ActivityStart(now) <= HourOf(s.history[i].createdAt) <= Floor(now, HOUR)
  {
    var key := KeyOf(s.history[i]);
    MemberIsCounted(s.history, i, InRow(key));
    RequestsAreCounted(s.history, InRow(key));
    assert Row(s.hours, key) == Total(s.history, InRow(key));
    if ActivityStart(now) <= key.hour <= Floor(now, HOUR) {
      assert Reached(s.hours, key, now);
      var at :| 0 <= at < |rows| && rows[at] == HourRow(key, s.hours[key]);
    }
  }

  // ---------------------------------------------------------------- end to end

  lemma ReadingIsTotal(
    look: Reading, choose: Key -> bool, s: State, rows: seq<HourRow>, b: Bounds, now: int, known: set<string>,
    canonical: string -> string)
    requires Exact(s) && Selects(rows, s.hours, now) && b.step > 0 && Follows(look, choose, b, now, canonical)
    requires look(Blank(b, known)) == ZERO
    ensures look(AddRows(Blank(b, known), rows, b, now, canonical)) == Total(s.history, Shown(choose, now))
  {
    forall i | 0 <= i < |rows| ensures Fits(rows[i], now) {
      assert Reached(s.hours, rows[i].key, now);
    }
    ReadingIsRowSum(look, choose, Blank(b, known), rows, b, now, canonical);
    SelectedAddUp(s, rows, choose, now);
  }

  /** Everything shown is a sum over the full history of logs, each at its last written value:
      the summary over the range, every point of the timeline over its bucket, and every channel
      and model over its own logs in the range. */
  lemma AnswerIsHistory(
    s: State, rows: seq<HourRow>, period: string, now: int, known: set<string>, canonical: string -> string,
    i: nat, name: string)
    requires Exact(s) && Selects(rows, s.hours, now) && DashboardBounds(period, now).Ok?
    requires i < DashboardBounds(period, now).value.count
    ensures var b := DashboardBounds(period, now).value;
      b.step > 0 &&
      var t := AddRows(Blank(b, known), rows, b, now, canonical);
      && Summary()(t) == Total(s.history, Shown(SinceStart(b), now))
      && Point(i)(t) == Total(s.history, Shown(InBucket(b, i), now))
      && Channel(name)(t) == Total(s.history, Shown(OfChannel(b, name), now))
      && Model(name)(t) == Total(s.history, Shown(OfModel(b, name, canonical), now))
  {
    var b := DashboardBounds(period, now).value;
    SummaryFollows(period, now, canonical);
    PointFollows(period, now, i, canonical);
    ChannelFollows(period, now, name, canonical);
    ModelFollows(period, now, name, canonical);
    ReadingIsTotal(Summary(), SinceStart(b), s, rows, b, now, known, canonical);
    ReadingIsTotal(Point(i), InBucket(b, i), s, rows, b, now, known, canonical);
    ReadingIsTotal(Channel(name), OfChannel(b, name), s, rows, b, now, known, canonical);
    ReadingIsTotal(Model(name), OfModel(b, name, canonical), s, rows, b, now, known, canonical);
  }

  function OnDay(now: int, d: nat): Key -> bool {
    (key: Key) => ActivityStart(now) + d * DAY <= key.hour < ActivityStart(now) + (d + 1) * DAY
  }

  lemma ActivityGrows(t: Tallies, r: HourRow, b: Bounds, now: int, canonical: string -> string, d: nat)
    requires b.step > 0 && Fits(r, now) && d < ACTIVITY_DAYS == |t.activity|
    ensures var t' := AddRow(t, r, b, now, canonical);
      |t'.activity| == ACTIVITY_DAYS && t'.activity[d] == t.activity[d] + if OnDay(now, d)(r.key) then r.metrics.requests else 0
  {
  }

  /** The requests of the rows that a choice picks. */
  function RowRequests(rows: seq<HourRow>, choose: Key -> bool): int
    decreases |rows|
  {
    if rows == [] then 0
    else
      var last := rows[|rows| - 1];
      RowRequests(rows[..|rows| - 1], choose) + if choose(last.key) then last.metrics.requests else 0
  }

  lemma {:induction false} RowSumRequests(rows: seq<HourRow>, choose: Key -> bool)
    ensures RowSum(rows, choose).requests == RowRequests(rows, choose)
    decreases |rows|
  {
    if rows != [] {
      var front, last := rows[..|rows| - 1], rows[|rows| - 1];
      RowSumRequests(front, choose);
      PlusRequests(RowSum(front, choose), Kept(last, choose));
    }
  }

  lemma {:induction false} ActivityIsRowRequests(
    t: Tallies, rows: seq<HourRow>, b: Bounds, now: int, canonical: string -> string, d: nat)
    requires b.step > 0 && d < ACTIVITY_DAYS == |t.activity| && t.activity[d] == 0
    requires forall i :: 0 <= i < |rows| ==> Fits(rows[i], now)
    ensures var t' := AddRows(t, rows, b, now, canonical);
      |t'.activity| == ACTIVITY_DAYS && t'.activity[d] == RowRequests(rows, OnDay(now, d))
    decreases |rows|
  {
    if rows != [] {
      var front, last := rows[..|rows| - 1], rows[|rows| - 1];
      ActivityIsRowRequests(t, front, b, now, canonical, d);
      ActivityGrows(AddRows(t, front, b, now, canonical), last, b, now, canonical, d);
    }
  }

  /** Each of the 180 days of the activity calendar counts the requests of that day. */
  lemma ActivityIsHistory(
    s: State, rows: seq<HourRow>, b: Bounds, now: int, known: set<string>, canonical: string -> string, d: nat)
    requires Exact(s) && Selects(rows, s.hours, now) && b.step > 0 && d < ACTIVITY_DAYS
    ensures var t := AddRows(Blank(b, known), rows, b, now, canonical);
      |t.activity| == ACTIVITY_DAYS && t.activity[d] == Total(s.history, Shown(OnDay(now, d), now)).requests
  {
    forall i | 0 <= i < |rows| ensures Fits(rows[i], now) {
      assert Reached(s.hours, rows[i].key, now);
    }
    ActivityIsRowRequests(Blank(b, known), rows, b, now, canonical, d);
    RowSumRequests(rows, OnDay(now, d));
    SelectedAddUp(s, rows, OnDay(now, d), now);
  }

  /** The models listed are the known ones and those with a row in the range, under their canonical
      names; the channels those with one. */
  lemma {:induction false} ListedNames(
    rows: seq<HourRow>, period: string, now: int, known: set<string>, canonical: string -> string, name: string)
    requires DashboardBounds(period, now).Ok? && DashboardBounds(period, now).value.step > 0
    requires forall i :: 0 <= i < |rows| ==> Fits(rows[i], now)
    ensures var b := DashboardBounds(period, now).value;
      var t := AddRows(Blank(b, known), rows, b, now, canonical);
      && |t.timeline| == b.count
      && (name in t.models <==>
            name in known || exists r :: r in rows && b.since <= r.key.hour && canonical(r.key.model) == name)
      && (name in t.channels <==> exists r :: r in rows && b.since <= r.key.hour && r.key.channel == name)
    decreases |rows|
  {
    if rows != [] {
      var front, last := rows[..|rows| - 1], rows[|rows| - 1];
      var b := DashboardBounds(period, now).value;
      ListedNames(front, period, now, known, canonical, name);
      RowEnters(AddRows(Blank(b, known), front, b, now, canonical), last, period, now, canonical);
      SameLength(AddRows(Blank(b, known), front, b, now, canonical), last, b, now, canonical);
      assert rows == front + [last];
    }
  }
}

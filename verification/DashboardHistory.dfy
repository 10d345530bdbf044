/** Hourly aggregates kept up to date by triggers: each insert adds the new log to its row, each
    update subtracts the old values and adds the new ones, and deletions leave the rows alone. */
module DashboardHistory {
  import opened Metrics
  import Ordered

  const RETENTION := 14 * 24 * 60 * 60 * 1000
  const KEEP := 50_000
  const BATCH := 2_000

  /** `history` holds every log ever inserted at its last written value; `place` says where in
      it each log still stored stands. */
  datatype State = State(rows: map<int, Log>, hours: map<Key, Metrics>, history: seq<Log>, place: map<int, nat>)

  function Row(hours: map<Key, Metrics>, key: Key): Metrics {
    if key in hours then hours[key] else ZERO
  }

  /** One upsert of the triggers. */
  function Upsert(hours: map<Key, Metrics>, key: Key, delta: Metrics): map<Key, Metrics> {
    hours[key := Plus(Row(hours, key), delta)]
  }

  /** Defaults filled in on insertion. */
  function Normal(l: Log, now: int): Log {
    l.(createdAt := if l.createdAt <= 0 then now else l.createdAt,
       status := if l.status == "" then "processing" else l.status)
  }

  datatype Step = Insert(id: int, log: Log, now: int) | Update(id: int, log: Log) | Delete(ids: set<int>)

  /** The database hands out identifiers that are not in use; cleared ones may come again. */
  predicate Enabled(s: State, step: Step) {
    step.Insert? ==> step.id > 0 && step.id !in s.rows
  }

  function Apply(s: State, step: Step): State {
    match step
    case Insert(id, log, now) =>
      var l := Normal(log, now);
      State(s.rows[id := l], Upsert(s.hours, KeyOf(l), Contribution(l)), s.history + [l], s.place[id := |s.history|])
    case Update(id, log) =>
      if id <= 0 || id !in s.rows || id !in s.place || s.place[id] >= |s.history| then s
      else
        var was := s.rows[id];
        var l := log.(createdAt := was.createdAt);
        s.(rows := s.rows[id := l],
           hours := Upsert(Upsert(s.hours, KeyOf(was), Minus(Contribution(was))), KeyOf(l), Contribution(l)),
           history := s.history[s.place[id] := l])
    case Delete(ids) => s.(rows := s.rows - ids, place := s.place - ids)
  }

  // ---------------------------------------------------------------- the invariant

  ghost predicate Placed(rows: map<int, Log>, history: seq<Log>, place: map<int, nat>) {
    && place.Keys == rows.Keys
    && (forall id :: id in rows ==> id > 0 && place[id] < |history| && history[place[id]] == rows[id])
    && (forall a, b :: a in rows && b in rows && place[a] == place[b] ==> a == b)
  }

  /** Every row is the sum over the whole history of the logs that belong to it. */
  ghost predicate Sums(hours: map<Key, Metrics>, history: seq<Log>) {
    forall key :: Row(hours, key) == Total(history, InRow(key))
  }

  ghost predicate Exact(s: State) {
    Placed(s.rows, s.history, s.place) && Sums(s.hours, s.history)
  }

  lemma UpsertRow(hours: map<Key, Metrics>, l: Log, key: Key)
    ensures Row(Upsert(hours, KeyOf(l), Contribution(l)), key) == Plus(Row(hours, key), InRow(key)(l))
    ensures Row(Upsert(hours, KeyOf(l), Minus(Contribution(l))), key) == Plus(Row(hours, key), Minus(InRow(key)(l)))
  {
    PlusZero(Row(hours, key));
    assert Minus(ZERO) == ZERO;
  }

  lemma AddingKeepsSums(hours: map<Key, Metrics>, history: seq<Log>, l: Log)
    requires Sums(hours, history)
    ensures Sums(Upsert(hours, KeyOf(l), Contribution(l)), history + [l])
  {
    forall key ensures Row(Upsert(hours, KeyOf(l), Contribution(l)), key) == Total(history + [l], InRow(key)) {
      UpsertRow(hours, l, key);
      TotalSnoc(history, l, InRow(key));
    }
  }

  lemma RewritingKeepsSums(hours: map<Key, Metrics>, history: seq<Log>, i: nat, l: Log)
    requires Sums(hours, history) && i < |history|
    ensures Sums(Upsert(Upsert(hours, KeyOf(history[i]), Minus(Contribution(history[i]))), KeyOf(l), Contribution(l)),
                 history[i := l])
  {
    var less := Upsert(hours, KeyOf(history[i]), Minus(Contribution(history[i])));
    forall key ensures Row(Upsert(less, KeyOf(l), Contribution(l)), key) == Total(history[i := l], InRow(key)) {
      UpsertRow(hours, history[i], key);
      UpsertRow(less, l, key);
      TotalUpdate(history, i, l, InRow(key));
    }
  }

  lemma AddingKeepsPlaced(rows: map<int, Log>, history: seq<Log>, place: map<int, nat>, id: int, l: Log)
    requires Placed(rows, history, place) && id > 0 && id !in rows
    ensures Placed(rows[id := l], history + [l], place[id := |history|])
  {
  }

  lemma RewritingKeepsPlaced(rows: map<int, Log>, history: seq<Log>, place: map<int, nat>, id: int, l: Log)
    requires Placed(rows, history, place) && id in rows
    ensures Placed(rows[id := l], history[place[id] := l], place)
  {
  }

  lemma DeletingKeepsPlaced(rows: map<int, Log>, history: seq<Log>, place: map<int, nat>, ids: set<int>)
    requires Placed(rows, history, place)
    ensures Placed(rows - ids, history, place - ids)
  {
  }

  lemma StepKeepsExact(s: State, step: Step)
    requires Exact(s) && Enabled(s, step)
    ensures Exact(Apply(s, step))
  {
    match step
    case Insert(id, log, now) =>
      AddingKeepsSums(s.hours, s.history, Normal(log, now));
      AddingKeepsPlaced(s.rows, s.history, s.place, id, Normal(log, now));
    case Update(id, log) =>
      if id > 0 && id in s.rows {
        RewritingKeepsSums(s.hours, s.history, s.place[id], log.(createdAt := s.rows[id].createdAt));
        RewritingKeepsPlaced(s.rows, s.history, s.place, id, log.(createdAt := s.rows[id].createdAt));
      }
    case Delete(ids) => DeletingKeepsPlaced(s.rows, s.history, s.place, ids);
  }

  ghost predicate Runs(s: State, run: seq<Step>)
    decreases |run|, 0
  {
    run != [] ==> Runs(s, run[..|run| - 1]) && Enabled(After(s, run[..|run| - 1]), run[|run| - 1])
  }

  ghost function After(s: State, run: seq<Step>): State
    requires Runs(s, run)
    decreases |run|, 1
  {
    if run == [] then s else Apply(After(s, run[..|run| - 1]), run[|run| - 1])
  }

  /** After any run of inserts, updates (also ones that change model or channel) and deletions,
      every row equals the sum over all logs ever inserted, each at its last written value. */
  lemma {:induction false} AlwaysExact(s: State, run: seq<Step>)
    requires Exact(s) && Runs(s, run)
    ensures Exact(After(s, run))
    decreases |run|
  {
    if run != [] {
      AlwaysExact(s, run[..|run| - 1]);
      StepKeepsExact(After(s, run[..|run| - 1]), run[|run| - 1]);
    }
  }

  /** The rows are a function of the history. */
  lemma RowsFollowHistory(a: State, b: State, key: Key)
    requires Sums(a.hours, a.history) && Sums(b.hours, b.history) && a.history == b.history
    ensures Row(a.hours, key) == Row(b.hours, key)
  {
  }

  lemma SameHistoryAgain(s: State, id: int, log: Log)
    ensures var once := Apply(s, Update(id, log));
      Apply(once, Update(id, log)).history == once.history
  {
  }

  /** Writing the same values again counts nothing twice. */
  lemma RetryCountsOnce(s: State, id: int, log: Log, key: Key)
    requires Exact(s)
    ensures var once := Apply(s, Update(id, log));
      Row(Apply(once, Update(id, log)).hours, key) == Row(once.hours, key)
  {
    var once := Apply(s, Update(id, log));
    StepKeepsExact(s, Update(id, log));
    StepKeepsExact(once, Update(id, log));
    SameHistoryAgain(s, id, log);
    RowsFollowHistory(Apply(once, Update(id, log)), once, key);
  }

  /** A row without requests is all zero, so a reader that skips it loses nothing. */
  lemma EmptyRowsAreZero(s: State, key: Key)
    requires Exact(s)
    ensures Counted(Row(s.hours, key))
  {
    NoRequestsNoMetrics(s.history, InRow(key));
  }

  /** However often logs were rewritten, each row's counters fit together: outcomes never exceed
      requests, samples never exceed successes, and sums are zero without samples. */
  lemma RowsAreCoherent(s: State, key: Key)
    requires Exact(s)
    ensures Coherent(Row(s.hours, key))
  {
    forall l ensures Coherent(InRow(key)(l)) {
      ContributionCoherent(l);
    }
    TotalCoherent(s.history, InRow(key));
  }

  // ---------------------------------------------------------------- retention

  /** What other connections do between two statements; an identifier in use is refused. */
  function Meanwhile(s: State, others: seq<Step>): State {
    if others == [] then s else Tried(Meanwhile(s, others[..|others| - 1]), others[|others| - 1])
  }

  function Tried(s: State, step: Step): State {
    if Enabled(s, step) then Apply(s, step) else s
  }

  /** Logs past their fourteen days. */
  function Stale(rows: map<int, Log>, now: int): set<int> {
    set id | id in rows && rows[id].createdAt < now - RETENTION
  }

  function WithoutStale(s: State, now: int): State {
    Apply(s, Delete(Stale(s.rows, now)))
  }

  /** What a pruning counts: stale logs are gone. */
  function Counting(s: State, now: int, between: seq<Step>): State {
    Meanwhile(WithoutStale(s, now), between)
  }

  /** The rest of a pruning, once the logs are counted: `oldest` go if there are too many. */
  function Trimmed(counted: State, later: seq<Step>, oldest: set<int>): State {
    if |counted.rows| <= KEEP then counted else Apply(Meanwhile(counted, later), Delete(oldest))
  }

  /** As many as there are too many, and the lowest identifiers. */
  ghost predicate Excess(oldest: set<int>, counted: State, later: seq<Step>) {
    |counted.rows| > KEEP ==> Ordered.Lowest(oldest, Meanwhile(counted, later).rows.Keys, |counted.rows| - KEEP)
  }

  function Gap(meanwhile: seq<seq<Step>>, k: nat): seq<Step> {
    if k < |meanwhile| then meanwhile[k] else []
  }

  /** Batches deleted one after another, with other connections at work after each. */
  function Cleared(s: State, batches: seq<set<int>>, meanwhile: seq<seq<Step>>): State {
    if batches == [] then s
    else
      var k := |batches| - 1;
      Meanwhile(Apply(Cleared(s, batches[..k], meanwhile), Delete(batches[k])), Gap(meanwhile, k))
  }

  lemma TriedKeepsExact(s: State, step: Step)
    requires Exact(s)
    ensures Exact(Tried(s, step))
  {
    if Enabled(s, step) {
      StepKeepsExact(s, step);
    }
  }

  lemma ClearedSnoc(s: State, batches: seq<set<int>>, batch: set<int>, meanwhile: seq<seq<Step>>)
    ensures Cleared(s, batches + [batch], meanwhile)
      == Meanwhile(Apply(Cleared(s, batches, meanwhile), Delete(batch)), Gap(meanwhile, |batches|))
  {
    assert (batches + [batch])[..|batches|] == batches;
  }

  lemma {:induction false} MeanwhileKeepsExact(s: State, others: seq<Step>)
    requires Exact(s)
    ensures Exact(Meanwhile(s, others))
    decreases |others|
  {
    if others != [] {
      var last := |others| - 1;
      MeanwhileKeepsExact(s, others[..last]);
      TriedKeepsExact(Meanwhile(s, others[..last]), others[last]);
    }
  }

  /** Clearing the logs while others write keeps every aggregate exact; alone it changes none. */
  lemma {:induction false} ClearedKeepsExact(s: State, batches: seq<set<int>>, meanwhile: seq<seq<Step>>)
    requires Exact(s)
    ensures var cleared := Cleared(s, batches, meanwhile);
      Exact(cleared) && (meanwhile == [] ==> cleared.hours == s.hours && cleared.history == s.history)
    decreases |batches|
  {
    if batches != [] {
      var k := |batches| - 1;
      ClearedKeepsExact(s, batches[..k], meanwhile);
      var before := Cleared(s, batches[..k], meanwhile);
      StepKeepsExact(before, Delete(batches[k]));
      MeanwhileKeepsExact(Apply(before, Delete(batches[k])), Gap(meanwhile, k));
    }
  }

  lemma MovesOver<V>(m: map<int, V>, left: set<int>, id: int)
    requires left <= m.Keys && id in left
    ensures (m - left)[id := m[id]] == m - (left - {id})
  {
  }

  // ---------------------------------------------------------------- the tables

  class Tables {
    var rows: map<int, Log>
    var hours: map<Key, Metrics>
    ghost var history: seq<Log>
    ghost var place: map<int, nat>

    ghost function View(): State
      reads this
    {
      State(rows, hours, history, place)
    }

    ghost predicate Valid()
      reads this
    {
      Exact(View())
    }

    /** One statement of a trigger: insert the delta, or add it where the row exists. */
    method AddTo(key: Key, delta: Metrics)
      modifies `hours
      ensures hours == Upsert(old(hours), key, delta)
    {
      if key in hours {
        hours := hours[key := Plus(hours[key], delta)];
      } else {
        PlusZero(delta);
        hours := hours[key := delta];
      }
    }

    /** The first start of a version with the dashboard groups the logs that are there. */
    constructor Upgrade(logs: map<int, Log>)
      requires forall id :: id in logs ==> id > 0
      ensures Valid() && rows == logs && |history| == |logs|
    {
      rows, hours, history, place := map[], map[], [], map[];
      new;
      var left := logs.Keys;
      while left != {}
        invariant Valid() && |history| + |left| == |logs.Keys|
        invariant left <= logs.Keys && rows == logs - left
        decreases |left|
      {
        var id := Ordered.Pick(left);
        Load(id, logs[id]);
        MovesOver(logs, left, id);
        left := left - {id};
      }
      assert logs - {} == logs;
    }

    method Load(id: int, l: Log)
      requires Valid() && id > 0 && id !in rows
      modifies this
      ensures Valid() && rows == old(rows)[id := l] && |history| == |old(history)| + 1
    {
      AddingKeepsSums(hours, history, l);
      AddingKeepsPlaced(rows, history, place, id, l);
      AddTo(KeyOf(l), Contribution(l));
      rows, history, place := rows[id := l], history + [l], place[id := |history|];
    }

    method InsertRequestLog(id: int, log: Log, now: int)
      requires Valid() && Enabled(View(), Insert(id, log, now))
      modifies this
      ensures Valid() && View() == Apply(old(View()), Insert(id, log, now))
    {
      StepKeepsExact(View(), Insert(id, log, now));
      Store(id, log, now);
    }

    /** The insertion and its trigger. */
    method Store(id: int, log: Log, now: int)
      modifies this
      ensures View() == Apply(old(View()), Insert(id, log, now))
    {
      var l := log;
      if l.createdAt <= 0 {
        l := l.(createdAt := now);
      }
      if l.status == "" {
        l := l.(status := "processing");
      }
      rows, history, place := rows[id := l], history + [l], place[id := |history|];
      AddTo(KeyOf(l), Contribution(l));
    }

    method UpdateRequestLog(id: int, log: Log)
      requires Valid()
      modifies this
      ensures Valid() && View() == Apply(old(View()), Update(id, log))
    {
      StepKeepsExact(View(), Update(id, log));
      if id <= 0 || id !in rows {
        return;
      }
      Rewrite(id, log);
    }

    /** The update and its trigger. */
    method Rewrite(id: int, log: Log)
      requires id > 0 && id in rows && id in place && place[id] < |history|
      modifies `rows, `hours, `history
      ensures View() == Apply(old(View()), Update(id, log))
    {
      var was := rows[id];
      var l := log.(createdAt := was.createdAt);
      AddTo(KeyOf(was), Minus(Contribution(was)));
      AddTo(KeyOf(l), Contribution(l));
      rows, history := rows[id := l], history[place[id] := l];
    }

    method DeleteLogs(ids: set<int>)
      requires Valid()
      modifies `rows, `place
      ensures Valid() && View() == Apply(old(View()), Delete(ids))
    {
      StepKeepsExact(View(), Delete(ids));
      rows := rows - ids;
      place := place - ids;
    }

    /** Other connections at work. */
    method Meet(others: seq<Step>)
      requires Valid()
      modifies this
      ensures Valid() && View() == Meanwhile(old(View()), others)
    {
      for i := 0 to |others|
        invariant Valid() && View() == Meanwhile(old(View()), others[..i])
      {
        assert others[..i + 1][..i] == others[..i];
        MeetOne(others[i]);
      }
      assert others[..|others|] == others;
    }

    method MeetOne(step: Step)
      requires Valid()
      modifies this
      ensures Valid() && View() == Tried(old(View()), step)
    {
      match step
      case Insert(id, log, now) =>
        if id > 0 && id !in rows {
          InsertRequestLog(id, log, now);
        }
      case Update(id, log) => UpdateRequestLog(id, log);
      case Delete(ids) => DeleteLogs(ids);
    }

    method DeleteStale(now: int)
      requires Valid()
      modifies `rows, `place
      ensures Valid() && View() == WithoutStale(old(View()), now)
    {
      DeleteLogs(Stale(rows, now));
    }

    /** Three statements, with other connections at work after the first and after the second. */
    method PruneRequestLogs(now: int, between: seq<Step>, later: seq<Step>) returns (ghost oldest: set<int>)
      requires Valid()
      modifies this
      ensures Valid() && Excess(oldest, Counting(old(View()), now, between), later)
      ensures View() == Trimmed(Counting(old(View()), now, between), later, oldest)
    {
      DeleteStale(now);
      Meet(between);
      oldest := Trim(later);
    }

    /** Counts the logs and deletes the oldest of those beyond the number kept. */
    method Trim(later: seq<Step>) returns (ghost gone: set<int>)
      requires Valid()
      modifies this
      ensures Valid() && Excess(gone, old(View()), later)
      ensures View() == Trimmed(old(View()), later, gone)
    {
      var n := |rows|;
      gone := {};
      if n > KEEP {
        Meet(later);
        var oldest := Ordered.LowestKeys(rows, n - KEEP);
        DeleteLogs(oldest);
        gone := oldest;
      }
    }

    /** Deletes in batches until a batch finds nothing, while others write between two batches. */
    method ClearRequestLogs(meanwhile: seq<seq<Step>>) returns (ghost batches: seq<set<int>>)
      requires Valid()
      modifies this
      ensures Valid() && rows == map[]
      ensures View() == Cleared(old(View()), batches, meanwhile)
    {
      batches := [];
      var k := 0;
      var more := true;
      while more
        invariant k == |batches| && Valid() && (!more ==> rows == map[])
        invariant View() == Cleared(old(View()), batches, meanwhile)
        decreases more, if k < |meanwhile| then |meanwhile| - k else 0, rows.Keys
      {
        ghost var batch;
        more, batch := ClearBatch();
        if more {
          NothingMeanwhile(View());
          ClearedSnoc(old(View()), batches, batch, meanwhile);
          Meet(Gap(meanwhile, k));
          batches, k := batches + [batch], k + 1;
        }
      }
    }

    /** One batch; tells whether it found something. */
    method ClearBatch() returns (found: bool, ghost batch: set<int>)
      requires Valid()
      modifies `rows, `place
      ensures Valid() && View() == Apply(old(View()), Delete(batch))
      ensures batch <= old(rows).Keys && |batch| <= BATCH
      ensures found ==> rows.Keys < old(rows).Keys
      ensures !found ==> rows == map[] && View() == old(View())
    {
      var some := Batch(rows.Keys);
      batch, found := some, some != {};
      TakingSome(rows, some);
      TakingSome(place, some);
      DeleteLogs(some);
    }

    static method Batch(all: set<int>) returns (batch: set<int>)
      ensures batch <= all && |batch| <= BATCH && (batch == {} ==> all == {})
    {
      batch := {};
      while batch != all && |batch| < BATCH
        invariant batch <= all && |batch| <= BATCH
        decreases |all - batch|
      {
        var id := Ordered.Pick(all - batch);
        batch := batch + {id};
      }
    }
  }

  lemma NothingMeanwhile(s: State)
    ensures Meanwhile(s, []) == s
  {
  }

  lemma TakingSome<V>(m: map<int, V>, ids: set<int>)
    ensures ids == {} ==> m - ids == m
    ensures ids != {} && ids <= m.Keys ==> (m - ids).Keys < m.Keys
    ensures m.Keys == {} ==> m == map[]
  {
    assert (m - ids).Keys == m.Keys - ids;
  }

  ghost predicate KeepsNewest(there: map<int, Log>, kept: map<int, Log>) {
    && kept.Keys <= there.Keys
    && (forall id :: id in kept ==> kept[id] == there[id])
    && (forall id, other :: id in there && id !in kept && other in kept ==> id < other)
  }

  /** Deleting the oldest takes exactly so many, each older than every log kept. */
  lemma OldestGo(rows: map<int, Log>, oldest: set<int>, n: nat)
    requires Ordered.Lowest(oldest, rows.Keys, n)
    ensures KeepsNewest(rows, rows - oldest)
    ensures |rows - oldest| == if |rows| <= n then 0 else |rows| - n
  {
    var kept := rows - oldest;
    assert kept.Keys == rows.Keys - oldest;
    assert |kept| == |kept.Keys| && |rows| == |rows.Keys|;
  }

  /** Nothing but deletions makes a stored log go, and at most one log comes with each step. */
  lemma {:induction false} OthersKeepRows(s: State, others: seq<Step>)
    requires NoDeletion(others)
    ensures |s.rows| <= |Meanwhile(s, others).rows| <= |s.rows| + |others|
    decreases |others|
  {
    if others != [] {
      var last := |others| - 1;
      assert others[last] in others;
      OthersKeepRows(s, others[..last]);
      StepKeepsRows(Meanwhile(s, others[..last]), others[last]);
    }
  }

  lemma StepKeepsRows(s: State, step: Step)
    requires !step.Delete?
    ensures |s.rows| <= |Apply(s, step).rows| <= |s.rows| + 1
  {
    var rows := Apply(s, step).rows;
    if step.Insert? {
      assert rows.Keys == s.rows.Keys + {step.id};
    } else {
      assert rows.Keys == s.rows.Keys;
    }
    assert |rows| == |rows.Keys| && |s.rows| == |s.rows.Keys|;
  }

  /** Stored logs are recent, or came with a later insertion. */
  ghost predicate Recent(rows: map<int, Log>, now: int, others: seq<Step>) {
    forall id :: id in rows ==> rows[id].createdAt >= now - 14 * 24 * 60 * 60 * 1000 || Came(id, others)
  }

  ghost predicate Came(id: int, others: seq<Step>) {
    exists step :: step in others && step.Insert? && step.id == id
  }

  lemma {:induction false} MeanwhileStaysRecent(s: State, now: int, earlier: seq<Step>, others: seq<Step>)
    requires Recent(s.rows, now, earlier)
    ensures Recent(Meanwhile(s, others).rows, now, earlier + others)
    decreases |others|
  {
    if others != [] {
      var last := |others| - 1;
      var before := Meanwhile(s, others[..last]);
      MeanwhileStaysRecent(s, now, earlier, others[..last]);
      assert earlier + others == (earlier + others[..last]) + [others[last]];
      StepStaysRecent(before, now, earlier + others[..last], others[last]);
    } else {
      assert earlier + others == earlier;
    }
  }

  lemma StepStaysRecent(s: State, now: int, earlier: seq<Step>, step: Step)
    requires Recent(s.rows, now, earlier)
    ensures Recent(s.rows, now, earlier + [step]) && Recent(Apply(s, step).rows, now, earlier + [step])
  {
    forall id | Came(id, earlier) ensures Came(id, earlier + [step]) {
      var came :| came in earlier && came.Insert? && came.id == id;
      assert came in earlier + [step];
    }
    assert step in earlier + [step];
  }

  ghost predicate NoDeletion(others: seq<Step>) {
    forall step :: step in others ==> !step.Delete?
  }

  /** However others write meanwhile, what a pruning keeps is of the last fourteen days or came
      after it had begun. */
  lemma PruneDropsStale(s: State, now: int, between: seq<Step>, later: seq<Step>, oldest: set<int>)
    ensures Recent(Trimmed(Counting(s, now, between), later, oldest).rows, now, between + later)
  {
    var fresh' := WithoutStale(s, now);
    MeanwhileStaysRecent(fresh', now, [], between);
    assert [] + between == between;
    MeanwhileStaysRecent(Meanwhile(fresh', between), now, between, later);
    if |Counting(s, now, between).rows| <= KEEP {
      MoreComes(Counting(s, now, between).rows, now, between, later);
    }
  }

  lemma MoreComes(rows: map<int, Log>, now: int, others: seq<Step>, more: seq<Step>)
    requires Recent(rows, now, others)
    ensures Recent(rows, now, others + more)
  {
    forall id | Came(id, others) ensures Came(id, others + more) {
      var came :| came in others && came.Insert? && came.id == id;
      assert came in others + more;
    }
  }

  /** Up to 50000 logs all stay. Of more, the oldest go: every log kept is newer than every one
      dropped, and unless somebody else deletes too, 50000 stay and no more than those and the ones
      that came after the count. */
  lemma PruneKeepsNewest(counted: State, later: seq<Step>, oldest: set<int>)
    requires Excess(oldest, counted, later)
    ensures var kept := Trimmed(counted, later, oldest).rows;
      && (|counted.rows| <= 50_000 ==> kept == counted.rows)
      && (|counted.rows| > 50_000 ==> KeepsNewest(Meanwhile(counted, later).rows, kept))
      && (|counted.rows| > 50_000 && NoDeletion(later) ==> 50_000 <= |kept| <= 50_000 + |later|)
  {
    if |counted.rows| > KEEP {
      OldestGo(Meanwhile(counted, later).rows, oldest, |counted.rows| - KEEP);
      if NoDeletion(later) {
        OthersKeepRows(counted, later);
      }
    }
  }
}

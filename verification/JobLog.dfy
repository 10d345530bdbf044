/** The progress log of one job: repeats of the newest entry are folded into it, and at most
    300 entries are kept by an overlapping copy inside the log's own storage. */
module JobLog {
  import Seqs

  const MAX_LOGS: nat := 300

  /** What two log calls must share to be folded together. */
  datatype Key = Key(level: string, stage: string, message: string, detail: string)

  datatype Call = Call(key: Key, time: int)

  datatype Event = Event(key: Key, repeats: int, sequence: int, time: int)

  // ---------------------------------------------------------------- the unbounded log

  /** The log of all calls if nothing were ever dropped. */
  function Encode(calls: seq<Call>): seq<Event> {
    if calls == [] then []
    else Append(Encode(calls[..|calls| - 1]), calls[|calls| - 1])
  }

  function Append(log: seq<Event>, c: Call): seq<Event> {
    if log == [] then [Event(c.key, 1, 1, c.time)]
    else
      var n, last := |log|, log[|log| - 1];
      if last.key == c.key then log[n - 1 := last.(repeats := last.repeats + 1, time := c.time)]
      else log + [Event(c.key, 1, last.sequence + 1, c.time)]
  }

  function Repeated(key: Key, n: int): seq<Key> {
    if n <= 0 then [] else [key] + Repeated(key, n - 1)
  }

  /** The calls an event log stands for. */
  function Expand(log: seq<Event>): seq<Key> {
    if log == [] then []
    else Expand(log[..|log| - 1]) + Repeated(log[|log| - 1].key, log[|log| - 1].repeats)
  }

  function Keys(calls: seq<Call>): seq<Key> {
    seq(|calls|, i requires 0 <= i < |calls| => calls[i].key)
  }

  function TotalRepeats(log: seq<Event>): int {
    if log == [] then 0 else TotalRepeats(log[..|log| - 1]) + log[|log| - 1].repeats
  }

  lemma RepeatedEnd(key: Key, n: int)
    requires n >= 0
    ensures Repeated(key, n + 1) == Repeated(key, n) + [key]
  {
    if n > 0 {
      RepeatedEnd(key, n - 1);
    }
  }

  ghost predicate WellFormed(log: seq<Event>) {
    && (forall i :: 0 <= i < |log| ==> log[i].sequence == i + 1 && log[i].repeats >= 1)
    && (forall i :: 0 < i < |log| ==> log[i - 1].key != log[i].key)
  }

  lemma ExpandSnoc(log: seq<Event>, e: Event)
    ensures Expand(log + [e]) == Expand(log) + Repeated(e.key, e.repeats)
    ensures TotalRepeats(log + [e]) == TotalRepeats(log) + e.repeats
  {
    assert (log + [e])[..|log|] == log;
  }

  lemma WellFormedSnoc(log: seq<Event>, e: Event)
    ensures WellFormed(log + [e]) <==>
      && WellFormed(log) && e.sequence == |log| + 1 && e.repeats >= 1
      && (log != [] ==> log[|log| - 1].key != e.key)
  {
    var all := log + [e];
    assert all[|log|] == e && forall i :: 0 <= i < |log| ==> all[i] == log[i];
  }

  /** A well-formed log that stands for one more call than another. */
  ghost predicate OneMore(more: seq<Event>, log: seq<Event>, key: Key) {
    WellFormed(more) && Expand(more) == Expand(log) + [key] && TotalRepeats(more) == TotalRepeats(log) + 1
  }

  /** A repeat of the last entry expands to one more call. */
  lemma RepeatExpands(front: seq<Event>, last: Event, time: int)
    requires WellFormed(front + [last])
    ensures OneMore(front + [last.(repeats := last.repeats + 1, time := time)], front + [last], last.key)
  {
    var again := last.(repeats := last.repeats + 1, time := time);
    WellFormedSnoc(front, last);
    WellFormedSnoc(front, again);
    ExpandSnoc(front, last);
    ExpandSnoc(front, again);
    RepeatedEnd(last.key, last.repeats);
    Seqs.Assoc(Expand(front), Repeated(last.key, last.repeats), [last.key]);
  }

  /** So does a new entry with a key of its own. */
  lemma NextExpands(log: seq<Event>, next: Event)
    requires WellFormed(log) && next.repeats == 1 && next.sequence == |log| + 1
    requires log != [] ==> log[|log| - 1].key != next.key
    ensures OneMore(log + [next], log, next.key)
  {
    WellFormedSnoc(log, next);
    ExpandSnoc(log, next);
    assert Repeated(next.key, 1) == [next.key];
  }

  lemma AppendRepeat(log: seq<Event>, c: Call)
    requires WellFormed(log) && log != [] && log[|log| - 1].key == c.key
    ensures OneMore(Append(log, c), log, c.key)
  {
    var front, last := log[..|log| - 1], log[|log| - 1];
    assert log == front + [last];
    assert Append(log, c) == front + [last.(repeats := last.repeats + 1, time := c.time)];
    RepeatExpands(front, last, c.time);
  }

  lemma AppendNew(log: seq<Event>, c: Call)
    requires WellFormed(log) && (log != [] ==> log[|log| - 1].key != c.key)
    ensures OneMore(Append(log, c), log, c.key)
  {
    var next := Event(c.key, 1, |log| + 1, c.time);
    assert Append(log, c) == log + [next];
    NextExpands(log, next);
  }

  lemma AppendExpands(log: seq<Event>, c: Call)
    requires WellFormed(log)
    ensures OneMore(Append(log, c), log, c.key)
  {
    if log != [] && log[|log| - 1].key == c.key {
      AppendRepeat(log, c);
    } else {
      AppendNew(log, c);
    }
  }

  /** The newest entry shows the key and the time of the newest call. */
  lemma NewestIsLast(log: seq<Event>, c: Call)
    ensures var log' := Append(log, c);
      log' != [] && log'[|log'| - 1].key == c.key && log'[|log'| - 1].time == c.time
  {
  }

  /** The unbounded log is a run-length encoding: expanding it gives back the calls one by one,
      no two neighbours agree, sequence numbers run 1, 2, 3, ... and repeats add up. */
  lemma {:induction false} EncodeIsRunLength(calls: seq<Call>)
    ensures WellFormed(Encode(calls))
    ensures Expand(Encode(calls)) == Keys(calls)
    ensures TotalRepeats(Encode(calls)) == |calls|
  {
    if calls != [] {
      var before, c := calls[..|calls| - 1], calls[|calls| - 1];
      EncodeIsRunLength(before);
      AppendExpands(Encode(before), c);
      assert Keys(calls) == Keys(before) + [c.key];
    }
  }

  // ---------------------------------------------------------------- the window that is kept

  function Window(log: seq<Event>): (w: seq<Event>)
    ensures |w| == if |log| <= MAX_LOGS then |log| else MAX_LOGS
  {
    if |log| <= MAX_LOGS then log else log[|log| - MAX_LOGS..]
  }

  lemma WindowOfNext(w: seq<Event>, e: Event)
    requires |w| <= MAX_LOGS
    ensures Window(w + [e]) == if |w| < MAX_LOGS then w + [e] else (w + [e])[1..]
  {
  }

  /** The kept window can be maintained from itself: the dropped entries are never needed. */
  lemma WindowAppend(log: seq<Event>, c: Call)
    ensures Window(Append(log, c)) == Window(Append(Window(log), c))
  {
    if log != [] {
      var w, last := Window(log), log[|log| - 1];
      assert w[|w| - 1] == last;
      AppendToWindow(log, c);
      if last.key == c.key {
        assert Append(w, c) == w[|w| - 1 := last.(repeats := last.repeats + 1, time := c.time)];
      } else {
        assert Append(w, c) == w + [Event(c.key, 1, last.sequence + 1, c.time)];
      }
    }
  }

  lemma AppendToWindow(log: seq<Event>, c: Call)
    requires log != []
    ensures var last := log[|log| - 1];
      Append(log, c) == if last.key == c.key then log[|log| - 1 := last.(repeats := last.repeats + 1, time := c.time)]
                        else log + [Event(c.key, 1, last.sequence + 1, c.time)]
  {
  }

  lemma KeptAppend(calls: seq<Call>, c: Call)
    ensures Window(Encode(calls + [c])) == Window(Append(Window(Encode(calls)), c))
  {
    assert (calls + [c])[..|calls|] == calls;
    WindowAppend(Encode(calls), c);
  }

  // ---------------------------------------------------------------- stage and status

  datatype Status = Queued | Running | Success | Failed

  const STAGE_QUEUED := "queued"
  const STAGE_BROWSER := "browser"
  const STAGE_DONE := "done"

  /** The job as its log sees it: the stage goes into every entry. */
  datatype Job = Job(stage: string, status: Status, started: bool, calls: seq<Call>)

  const NEW := Job(STAGE_QUEUED, Queued, false, [])

  predicate Closed(j: Job) {
    j.status in {Success, Failed}
  }

  function Staged(j: Job, stage: string): Job {
    if stage == "" then j else j.(stage := stage)
  }

  /** What happens to a job: a line is logged, its status changes, its stage is set from outside. */
  datatype Step =
    | Say(message: string, detail: string, level: string, newStage: string, now: int)
    | Become(status: Status)
    | Enter(stage: string)

  function Apply(j: Job, step: Step): Job {
    match step
    case Say(message, detail, level, newStage, now) =>
      if message == "" then j
      else
        var j' := if Closed(j) then j else Staged(j, newStage);
        j'.(calls := j'.calls + [Call(Key(level, j'.stage, message, detail), now)])
    case Become(status) =>
      var j' := j.(status := status);
      if status == Running && !j.started then j'.(started := true, stage := STAGE_BROWSER)
      else if status == Success then j'.(stage := STAGE_DONE)
      else j'
    case Enter(stage) => Staged(j, stage)
  }

  function After(j: Job, steps: seq<Step>): Job
    decreases |steps|
  {
    if steps == [] then j else Apply(After(j, steps[..|steps| - 1]), steps[|steps| - 1])
  }

  /** Nothing that is merely logged moves a closed job to another stage: all its later entries
      carry the stage it was closed in, which for a success is the last one. */
  lemma {:induction false} ClosedKeepsStage(j: Job, steps: seq<Step>)
    requires Closed(j) && forall i :: 0 <= i < |steps| ==> steps[i].Say?
    ensures var k := After(j, steps);
      && k.stage == j.stage && k.status == j.status && |k.calls| >= |j.calls|
      && k.calls[..|j.calls|] == j.calls
      && forall i :: |j.calls| <= i < |k.calls| ==> k.calls[i].key.stage == j.stage
    decreases |steps|
  {
    if steps != [] {
      ClosedKeepsStage(j, steps[..|steps| - 1]);
    }
  }

  /** A line that says something is the newest of the log, under the stage it names while the job is
      open, else under the stage the job is in. */
  lemma LineCarriesStage(j: Job, message: string, detail: string, level: string, newStage: string, now: int)
    requires message != ""
    ensures var k := Apply(j, Say(message, detail, level, newStage, now));
      var stage := if newStage == "" || j.status in {Success, Failed} then j.stage else newStage;
      && k.stage == stage && k.status == j.status
      && k.calls == j.calls + [Call(Key(level, stage, message, detail), now)]
  {
  }

  /** A job shows the browser stage when it first runs and the last stage when it succeeds; failing or
      running again leaves its stage. */
  lemma StatusSetsStage(j: Job, status: Status)
    ensures var k := Apply(j, Become(status));
      && k.status == status && k.calls == j.calls && (k.started <==> j.started || status == Running)
      && k.stage == if status == Success then STAGE_DONE
                    else if status == Running && !j.started then STAGE_BROWSER
                    else j.stage
  {
  }

  /** The log grows by exactly the lines that say something. */
  function Spoken(steps: seq<Step>): nat
    decreases |steps|
  {
    if steps == [] then 0
    else
      var last := steps[|steps| - 1];
      Spoken(steps[..|steps| - 1]) + if last.Say? && last.message != "" then 1 else 0
  }

  lemma {:induction false} EveryLineIsCounted(j: Job, steps: seq<Step>)
    ensures |After(j, steps).calls| == |j.calls| + Spoken(steps)
    decreases |steps|
  {
    if steps != [] {
      EveryLineIsCounted(j, steps[..|steps| - 1]);
    }
  }

  /** Over any run of a job, however its status and stage change between the lines, the repeat
      counts of its whole log add up to the number of lines that say something. */
  lemma RunIsRunLength(steps: seq<Step>)
    ensures var log := Encode(After(NEW, steps).calls);
      WellFormed(log) && TotalRepeats(log) == Spoken(steps)
  {
    EveryLineIsCounted(NEW, steps);
    EncodeIsRunLength(After(NEW, steps).calls);
  }

  // ---------------------------------------------------------------- the stored log

  class Log {
    var buf: array<Event>
    var len: nat
    var stage: string
    var status: Status
    var started: bool
    ghost var calls: seq<Call>

    ghost function View(): Job
      reads this
    {
      Job(stage, status, started, calls)
    }

    /** What is stored is the window on the encoding of all calls. */
    ghost predicate Valid()
      reads this, buf
    {
      && buf.Length == MAX_LOGS + 1
      && len <= MAX_LOGS
      && buf[..len] == Window(Encode(calls))
    }

    constructor (first: Event)
      ensures Valid() && fresh(buf) && View() == NEW
    {
      buf := new Event[MAX_LOGS + 1](_ => first);
      len := 0;
      stage, status, started, calls := STAGE_QUEUED, Queued, false, [];
    }

    method SetStage(newStage: string)
      requires Valid()
      modifies `stage
      ensures Valid() && View() == Apply(old(View()), Enter(newStage))
    {
      if newStage == "" || newStage == stage {
        return;
      }
      stage := newStage;
    }

    method SetStatus(newStatus: Status)
      requires Valid()
      modifies `stage, `status, `started
      ensures Valid() && View() == Apply(old(View()), Become(newStatus))
    {
      status := newStatus;
      if status == Running && !started {
        started := true;
        SetStage(STAGE_BROWSER);
      }
      if status == Success {
        SetStage(STAGE_DONE);
      }
    }

    /** `message`, `detail`, `level` and `newStage` are the presented form of the raw line. */
    method Logf(message: string, detail: string, level: string, newStage: string, now: int)
      requires Valid()
      modifies this, buf
      ensures Valid() && buf == old(buf)
      ensures View() == Apply(old(View()), Say(message, detail, level, newStage, now))
    {
      if message == "" {
        return;
      }
      if newStage != "" && status != Success && status != Failed {
        SetStage(newStage);
      }
      Keep(Key(level, stage, message, detail), now);
    }

    method Keep(key: Key, now: int)
      requires Valid()
      modifies buf, this`len, this`calls
      ensures Valid() && calls == old(calls) + [Call(key, now)]
    {
      Record(key, now);
      KeptAppend(calls, Call(key, now));
      calls := calls + [Call(key, now)];
    }

    method Record(key: Key, now: int)
      requires buf.Length == MAX_LOGS + 1 && len <= MAX_LOGS
      modifies buf, this`len
      ensures len <= MAX_LOGS
      ensures buf[..len] == Window(Append(old(buf[..len]), Call(key, now)))
    {
      ghost var w := buf[..len];
      var sequence := 1;
      if len > 0 {
        var last := buf[len - 1];
        AppendToWindow(w, Call(key, now));
        sequence := last.sequence + 1;
        if last.key == key {
          buf[len - 1] := last.(repeats := last.repeats + 1, time := now);
          assert buf[..len] == w[len - 1 := last.(repeats := last.repeats + 1, time := now)];
          return;
        }
      }
      Push(Event(key, 1, sequence, now));
    }

    /** Appends an entry, and drops the oldest when there are too many. */
    method Push(e: Event)
      requires buf.Length == MAX_LOGS + 1 && len <= MAX_LOGS
      modifies buf, this`len
      ensures len <= MAX_LOGS && buf[..len] == Window(old(buf[..len]) + [e])
    {
      WindowOfNext(buf[..len], e);
      Put(e);
      if len > MAX_LOGS {
        assert buf[1..len] == buf[..len][1..];
        Trim(1);
      }
    }

    method Put(e: Event)
      requires len < buf.Length
      modifies buf, this`len
      ensures len == old(len) + 1 && buf[..len] == old(buf[..len]) + [e]
    {
      buf[len] := e;
      len := len + 1;
    }

    /** Drops the oldest `drop` entries by copying the rest down over them. */
    method Trim(drop: nat)
      requires drop <= len <= buf.Length
      modifies buf, this`len
      ensures len == old(len) - drop
      ensures buf[..len] == old(buf[drop..len])
    {
      ghost var was, kept := buf[..], buf[drop..len];
      for i := 0 to len - drop
        invariant len == old(len) && |kept| == len - drop
        invariant buf[..i] == kept[..i]
        invariant buf[i..] == was[i..]
      {
        assert was[i + drop] == kept[i] && buf[i..][drop] == was[i..][drop];
        buf[i] := buf[i + drop];
        assert buf[..i + 1] == buf[..i] + [kept[i]];
      }
      len := len - drop;
    }
  }

  /** What a reader sees: at most 300 entries, the newest ones, without gaps in their numbers. */
  lemma WindowNumbers(calls: seq<Call>)
    ensures var log, w := Encode(calls), Window(Encode(calls));
      && |w| <= 300
      && (forall i :: 0 <= i < |w| ==> w[i].sequence == |log| - |w| + i + 1)
      && (forall i :: 0 < i < |w| ==> w[i - 1].key != w[i].key)
      && (|w| < 300 ==> Expand(w) == Keys(calls))
  {
    EncodeIsRunLength(calls);
  }
}

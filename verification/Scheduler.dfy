/** The automation job scheduler: one mutex guards a job table, a queue and the counters of
    two concurrency classes. Every critical section is one atomic step; the goroutines that
    still have to call the pump after leaving their critical section are counted, so that
    all interleavings of enqueue, pump, status change and finish are covered. */
module Scheduler {
  import Strings
  import Seqs

  type Id = string

  datatype Kind = Login | Refresh | Cookie

  datatype Status = Queued | Running | Succeeded | Failed

  datatype Job = Job(account: Id, kind: Kind, status: Status)

  datatype State = State(
    jobs: map<Id, Job>,
    queue: seq<Id>,
    running: map<Id, Id>,
    active: int,
    activeCookie: int,
    holdPump: bool)

  datatype Limits = Limits(login: int, cookie: int)

  // ---------------------------------------------------------------- limits

  /** A stored setting of at least 1 wins, then the configuration, never below 1. */
  function LoginLimit(setting: int, configured: int): (n: int)
    ensures n >= 1
    ensures setting >= 1 ==> n == setting
    ensures setting < 1 <= configured ==> n == configured
    ensures setting < 1 && configured < 1 ==> n == 1
  {
    if setting >= 1 then setting else if configured < 1 then 1 else configured
  }

  // ---------------------------------------------------------------- atomic steps as functions

  predicate IsCookie(s: State, id: Id) {
    id in s.jobs && s.jobs[id].kind == Cookie
  }

  predicate HasRoom(s: State, cookie: bool, lim: Limits) {
    if cookie then s.activeCookie < lim.cookie else s.active < lim.login
  }

  predicate Startable(s: State, id: Id, lim: Limits) {
    id in s.jobs && HasRoom(s, IsCookie(s, id), lim)
  }

  predicate Busy(s: State, account: Id) {
    account in s.running
    || exists i :: 0 <= i < |s.queue| && s.queue[i] in s.jobs && s.jobs[s.queue[i]].account == account
                   && s.jobs[s.queue[i]].status in {Queued, Running}
  }

  /** Whether the scan of the queue stops at entry `i`: a vanished job or a startable one. */
  predicate StopsAt(s: State, i: nat, lim: Limits)
    requires i < |s.queue|
  {
    s.queue[i] !in s.jobs || Startable(s, s.queue[i], lim)
  }

  function Scan(s: State, lim: Limits, i: nat := 0): (idx: int)
    requires i <= |s.queue|
    ensures idx == -1 || i <= idx < |s.queue|
    ensures idx == -1 ==> forall k :: i <= k < |s.queue| ==> !StopsAt(s, k, lim)
    ensures idx >= 0 ==> StopsAt(s, idx, lim) && forall k :: i <= k < idx ==> !StopsAt(s, k, lim)
    decreases |s.queue| - i
  {
    if i == |s.queue| then -1
    else if StopsAt(s, i, lim) then i
    else Scan(s, lim, i + 1)
  }

  function Without<T>(q: seq<T>, i: nat): (r: seq<T>)
    requires i < |q|
    ensures |r| == |q| - 1
  {
    q[..i] + q[i + 1..]
  }

  function StartAt(s: State, i: nat): State
    requires i < |s.queue| && s.queue[i] in s.jobs
  {
    var id := s.queue[i];
    s.(queue := Without(s.queue, i),
       active := if IsCookie(s, id) then s.active else s.active + 1,
       activeCookie := if IsCookie(s, id) then s.activeCookie + 1 else s.activeCookie,
       running := s.running[s.jobs[id].account := id])
  }

  /** The pump: scan, start or drop, and scan again until nothing stops the scan. */
  function PumpLoop(s: State, lim: Limits): (r: (State, seq<Id>))
    decreases |s.queue|
  {
    var i := Scan(s, lim);
    if i < 0 then (s, [])
    else if s.queue[i] !in s.jobs then PumpLoop(s.(queue := Without(s.queue, i)), lim)
    else
      var (s', more) := PumpLoop(StartAt(s, i), lim);
      (s', [s.queue[i]] + more)
  }

  function PumpAll(s: State, lim: Limits): (State, seq<Id>) {
    if s.holdPump then (s, []) else PumpLoop(s, lim)
  }

  /** What the store knows of an account when a job is asked for. */
  datatype Lookup = Missing | Found(cookies: string, cookie: string, paidAt: int)

  datatype Answer = Accepted | NoAccount | NoCookie | AlreadyPaid | HasJob

  function Enqueued(s: State, id: Id, account: Id, kind: Kind): State {
    s.(jobs := s.jobs[id := Job(account, kind, Queued)], queue := s.queue + [id])
  }

  function Finished(s: State, id: Id): State
    requires id in s.jobs
  {
    s.(active := if IsCookie(s, id) then s.active else s.active - 1,
       activeCookie := if IsCookie(s, id) then s.activeCookie - 1 else s.activeCookie,
       running := s.running - {s.jobs[id].account})
  }

  // ---------------------------------------------------------------- the manager

  class Manager {
    var jobs: map<Id, Job>
    var queue: seq<Id>
    var running: map<Id, Id>
    var active: int
    var activeCookie: int
    var holdPump: bool

    constructor ()
      ensures View() == State(map[], [], map[], 0, 0, false)
    {
      jobs, queue, running, active, activeCookie, holdPump := map[], [], map[], 0, 0, false;
    }

    function View(): State
      reads this
    {
      State(jobs, queue, running, active, activeCookie, holdPump)
    }

    method AccountBusy(account: Id) returns (busy: bool)
      ensures busy == Busy(View(), account)
    {
      if account in running {
        return true;
      }
      for i := 0 to |queue|
        invariant forall k :: 0 <= k < i ==>
          !(queue[k] in jobs && jobs[queue[k]].account == account && jobs[queue[k]].status in {Queued, Running})
      {
        var id := queue[i];
        if id in jobs && jobs[id].account == account && (jobs[id].status == Queued || jobs[id].status == Running) {
          return true;
        }
      }
      return false;
    }

    /** The checks on the account, then the critical section; the caller pumps after leaving it. */
    method Enqueue(id: Id, account: Id, found: Lookup, kind: Kind) returns (answer: Answer)
      modifies this
      ensures answer == NoAccount <==> found.Missing?
      ensures answer == NoCookie <==>
        found.Found? && kind == Cookie && Strings.Trim(found.cookies) == "" && Strings.Trim(found.cookie) == ""
      ensures answer == AlreadyPaid <==> found.Found? && kind != Cookie && found.paidAt > 0
      ensures answer in {HasJob, Accepted} ==> (answer == HasJob <==> Busy(old(View()), account))
      ensures View() == if answer == Accepted then Enqueued(old(View()), id, account, kind) else old(View())
    {
      if found.Missing? {
        return NoAccount;
      }
      if kind == Cookie {
        if Strings.Trim(found.cookies) == "" && Strings.Trim(found.cookie) == "" {
          return NoCookie;
        }
      } else if found.paidAt > 0 {
        return AlreadyPaid;
      }
      var busy := AccountBusy(account);
      if busy {
        return HasJob;
      }
      jobs := jobs[id := Job(account, kind, Queued)];
      queue := queue + [id];
      return Accepted;
    }

    /** The scan of the queue, front to back. */
    method FindStop(lim: Limits) returns (idx: int)
      ensures idx == Scan(View(), lim)
    {
      for i := 0 to |queue|
        invariant forall k :: 0 <= k < i ==> !StopsAt(View(), k, lim)
      {
        if queue[i] !in jobs {
          ScanIs(View(), lim, i);
          return i;
        }
        if jobs[queue[i]].kind == Cookie {
          if activeCookie < lim.cookie {
            ScanIs(View(), lim, i);
            return i;
          }
        } else if active < lim.login {
          ScanIs(View(), lim, i);
          return i;
        }
      }
      ScanIs(View(), lim, |queue|);
      return -1;
    }

    method Start(idx: nat) returns (id: Id)
      requires idx < |queue| && queue[idx] in jobs
      modifies this
      ensures View() == StartAt(old(View()), idx) && id == old(queue[idx])
    {
      id := queue[idx];
      queue := queue[..idx] + queue[idx + 1..];
      if jobs[id].kind == Cookie {
        activeCookie := activeCookie + 1;
      } else {
        active := active + 1;
      }
      running := running[jobs[id].account := id];
    }

    method Pump(lim: Limits) returns (started: seq<Id>)
      modifies this
      ensures (View(), started) == PumpAll(old(View()), lim)
    {
      started := [];
      if holdPump {
        return;
      }
      assert started + PumpLoop(View(), lim).1 == PumpLoop(View(), lim).1;
      while true
        invariant var (s', more) := PumpLoop(View(), lim); (s', started + more) == PumpLoop(old(View()), lim)
        decreases |queue|
      {
        var idx := FindStop(lim);
        if idx < 0 {
          assert started + [] == started;
          return;
        }
        if queue[idx] !in jobs {
          queue := queue[..idx] + queue[idx + 1..];
          continue;
        }
        ghost var before, startedBefore := View(), started;
        var id := Start(idx);
        started := started + [id];
        assert started + PumpLoop(View(), lim).1 == startedBefore + PumpLoop(before, lim).1;
      }
    }

    /** The deferred part of a worker; it pumps after leaving this section. */
    method Finish(id: Id)
      requires id in jobs
      modifies this
      ensures View() == Finished(old(View()), id)
    {
      if jobs[id].kind == Cookie {
        activeCookie := activeCookie - 1;
      } else {
        active := active - 1;
      }
      running := running - {jobs[id].account};
    }
  }

  lemma ScanIs(s: State, lim: Limits, i: nat)
    requires i <= |s.queue|
    requires forall k :: 0 <= k < i ==> !StopsAt(s, k, lim)
    requires i < |s.queue| ==> StopsAt(s, i, lim)
    ensures Scan(s, lim) == if i < |s.queue| then i else -1
  {
  }

  // ---------------------------------------------------------------- what one pump does, per class

  /** The ids of one concurrency class, in order. */
  function OfClass(jobs: map<Id, Job>, q: seq<Id>, cookie: bool): seq<Id> {
    if q == [] then []
    else (if q[0] in jobs && (jobs[q[0]].kind == Cookie) == cookie then [q[0]] else [])
         + OfClass(jobs, q[1..], cookie)
  }

  lemma OfClassConcat(jobs: map<Id, Job>, a: seq<Id>, b: seq<Id>, cookie: bool)
    ensures OfClass(jobs, a + b, cookie) == OfClass(jobs, a, cookie) + OfClass(jobs, b, cookie)
  {
    if a == [] {
      assert a + b == b;
    } else {
      assert (a + b)[0] == a[0] && (a + b)[1..] == a[1..] + b;
      OfClassConcat(jobs, a[1..], b, cookie);
    }
  }

  lemma OfClassEmpty(jobs: map<Id, Job>, q: seq<Id>, cookie: bool)
    requires forall k :: 0 <= k < |q| ==> q[k] in jobs && (jobs[q[k]].kind == Cookie) != cookie
    ensures OfClass(jobs, q, cookie) == []
  {
  }

  lemma OfClassFrame(jobs: map<Id, Job>, jobs': map<Id, Job>, q: seq<Id>, cookie: bool)
    requires forall k :: 0 <= k < |q| ==> q[k] in jobs && q[k] in jobs' && jobs'[q[k]].kind == jobs[q[k]].kind
    ensures OfClass(jobs', q, cookie) == OfClass(jobs, q, cookie)
  {
  }

  predicate Known(s: State) {
    forall k :: 0 <= k < |s.queue| ==> s.queue[k] in s.jobs
  }

  function Count(s: State, cookie: bool): int {
    if cookie then s.activeCookie else s.active
  }

  function Cap(lim: Limits, cookie: bool): int {
    if cookie then lim.cookie else lim.login
  }

  /** How many queued jobs of a class fit into its free slots. */
  function Fits(s: State, lim: Limits, cookie: bool): (n: nat)
    ensures n <= |OfClass(s.jobs, s.queue, cookie)|
  {
    var free := Cap(lim, cookie) - Count(s, cookie);
    var waiting := |OfClass(s.jobs, s.queue, cookie)|;
    if free <= 0 then 0 else if free < waiting then free else waiting
  }

  /** Starting entry `i` takes the head of its own class and leaves the other class alone. */
  lemma StartTakesClassHead(s: State, lim: Limits, i: nat, cookie: bool)
    requires Known(s) && i < |s.queue| && Startable(s, s.queue[i], lim)
    requires forall k :: 0 <= k < i ==> !Startable(s, s.queue[k], lim)
    ensures OfClass(s.jobs, s.queue, cookie)
         == (if IsCookie(s, s.queue[i]) == cookie then [s.queue[i]] else [])
            + OfClass(s.jobs, Without(s.queue, i), cookie)
  {
    ClassAround(s.jobs, s.queue, i, cookie);
    if IsCookie(s, s.queue[i]) == cookie {
      NoneBefore(s, lim, i, cookie);
    }
  }

  /** The waiting jobs of a class around one entry of the queue. */
  lemma ClassAround(jobs: map<Id, Job>, q: seq<Id>, i: nat, cookie: bool)
    requires i < |q| && q[i] in jobs
    ensures OfClass(jobs, q, cookie)
         == OfClass(jobs, q[..i], cookie)
            + ((if (jobs[q[i]].kind == Cookie) == cookie then [q[i]] else []) + OfClass(jobs, q[i + 1..], cookie))
    ensures OfClass(jobs, Without(q, i), cookie) == OfClass(jobs, q[..i], cookie) + OfClass(jobs, q[i + 1..], cookie)
  {
    assert q == q[..i] + q[i..];
    OfClassConcat(jobs, q[..i], q[i..], cookie);
    OfClassConcat(jobs, q[..i], q[i + 1..], cookie);
    assert q[i..][1..] == q[i + 1..];
  }

  /** Jobs the scan passed over are not of the class it stopped for. */
  lemma NoneBefore(s: State, lim: Limits, i: nat, cookie: bool)
    requires Known(s) && i < |s.queue| && Startable(s, s.queue[i], lim) && IsCookie(s, s.queue[i]) == cookie
    requires forall k :: 0 <= k < i ==> !Startable(s, s.queue[k], lim)
    ensures OfClass(s.jobs, s.queue[..i], cookie) == []
  {
    var q := s.queue;
    forall k | 0 <= k < i ensures q[..i][k] in s.jobs && (s.jobs[q[..i][k]].kind == Cookie) != cookie {
      assert q[..i][k] == q[k] && !Startable(s, q[k], lim);
    }
    OfClassEmpty(s.jobs, q[..i], cookie);
  }

  ghost predicate StartsClassPrefix(s: State, s': State, started: seq<Id>, lim: Limits, cookie: bool) {
    var waiting, n := OfClass(s.jobs, s.queue, cookie), Fits(s, lim, cookie);
    && s'.jobs == s.jobs && Known(s')
    && OfClass(s.jobs, started, cookie) == waiting[..n]
    && OfClass(s.jobs, s'.queue, cookie) == waiting[n..]
    && Count(s', cookie) == Count(s, cookie) + n
  }

  lemma HeadTaken<T>(head: T, rest: seq<T>, n: nat)
    requires n <= |rest|
    ensures ([head] + rest)[..n + 1] == [head] + rest[..n] && ([head] + rest)[n + 1..] == rest[n..]
  {
  }

  lemma PrefixStep(s: State, lim: Limits, i: nat, s': State, started: seq<Id>, cookie: bool)
    requires Known(s) && i < |s.queue| && Startable(s, s.queue[i], lim)
    requires forall k :: 0 <= k < i ==> !Startable(s, s.queue[k], lim)
    requires StartsClassPrefix(StartAt(s, i), s', started, lim, cookie)
    ensures StartsClassPrefix(s, s', [s.queue[i]] + started, lim, cookie)
  {
    StartTakesClassHead(s, lim, i, cookie);
    OfClassConcat(s.jobs, [s.queue[i]], started, cookie);
    assert OfClass(s.jobs, [s.queue[i]], cookie) == if IsCookie(s, s.queue[i]) == cookie then [s.queue[i]] else [];
    var rest := OfClass(s.jobs, Without(s.queue, i), cookie);
    if IsCookie(s, s.queue[i]) == cookie {
      var n := Fits(StartAt(s, i), lim, cookie);
      assert Fits(s, lim, cookie) == n + 1;
      HeadTaken(s.queue[i], rest, n);
    } else {
      assert [] + rest == rest;
    }
  }

  lemma PrefixNone(s: State, lim: Limits, cookie: bool)
    requires Known(s) && Scan(s, lim) < 0
    ensures StartsClassPrefix(s, s, [], lim, cookie)
  {
    if Count(s, cookie) < Cap(lim, cookie) {
      forall k | 0 <= k < |s.queue| ensures (s.jobs[s.queue[k]].kind == Cookie) != cookie {
        assert !StopsAt(s, k, lim);
      }
      OfClassEmpty(s.jobs, s.queue, cookie);
    }
  }

  /** One pump starts, in each class, exactly the longest queue prefix of that class that fits
      into the free slots: order inside a class is kept and a full class never blocks the other. */
  lemma {:induction false} PumpStartsClassPrefix(s: State, lim: Limits, cookie: bool)
    requires Known(s)
    ensures StartsClassPrefix(s, PumpLoop(s, lim).0, PumpLoop(s, lim).1, lim, cookie)
    decreases |s.queue|
  {
    var i := Scan(s, lim);
    if i < 0 {
      PrefixNone(s, lim, cookie);
    } else {
      forall k | 0 <= k < i ensures !Startable(s, s.queue[k], lim) {
        assert !StopsAt(s, k, lim);
      }
      var (s', more) := PumpLoop(StartAt(s, i), lim);
      PumpStartsClassPrefix(StartAt(s, i), lim, cookie);
      PrefixStep(s, lim, i, s', more, cookie);
    }
  }

  /** The pump leaves nothing startable behind. */
  lemma {:induction false} PumpLeavesNothingStartable(s: State, lim: Limits)
    ensures forall id :: id in PumpLoop(s, lim).0.queue ==> !Startable(PumpLoop(s, lim).0, id, lim)
    decreases |s.queue|
  {
    var i := Scan(s, lim);
    if i < 0 {
      forall id | id in s.queue ensures !Startable(s, id, lim) {
        var k :| 0 <= k < |s.queue| && s.queue[k] == id;
        assert !StopsAt(s, k, lim);
      }
    } else if s.queue[i] !in s.jobs {
      PumpLeavesNothingStartable(s.(queue := Without(s.queue, i)), lim);
    } else {
      PumpLeavesNothingStartable(StartAt(s, i), lim);
    }
  }

  // ---------------------------------------------------------------- all interleavings

  /** The manager together with everything outside its lock: pump calls still to be made,
      workers still executing, and the history of accepted and started jobs. */
  datatype World = World(
    s: State,
    pendingPumps: nat,
    executing: set<Id>,
    accepted: seq<Id>,
    started: seq<Id>)

  datatype Step =
    | Accept(id: Id, account: Id, kind: Kind)
    | RunPump(lim: Limits)
    | RequestPump
    | SetStatus(id: Id, status: Status)
    | End(id: Id)
    | HoldPump

  const Initial := World(State(map[], [], map[], 0, 0, false), 0, {}, [], [])

  predicate Enabled(w: World, step: Step) {
    match step
    case Accept(id, account, kind) => id !in w.s.jobs && !Busy(w.s, account)
    case RunPump(_) => w.pendingPumps > 0
    case SetStatus(id, _) => id in w.executing && id in w.s.jobs
    case End(id) => id in w.executing && id in w.s.jobs
    case _ => true
  }

  function Apply(w: World, step: Step): World
    requires Enabled(w, step)
  {
    match step
    case Accept(id, account, kind) =>
      w.(s := Enqueued(w.s, id, account, kind), pendingPumps := w.pendingPumps + 1, accepted := w.accepted + [id])
    case RunPump(lim) =>
      var (s', started) := PumpAll(w.s, lim);
      w.(s := s', pendingPumps := w.pendingPumps - 1, executing := w.executing + Elements(started),
         started := w.started + started)
    case RequestPump => w.(pendingPumps := w.pendingPumps + 1)
    case SetStatus(id, status) => w.(s := w.s.(jobs := w.s.jobs[id := w.s.jobs[id].(status := status)]))
    case End(id) =>
      w.(s := Finished(w.s, id), pendingPumps := w.pendingPumps + 1, executing := w.executing - {id})
    case HoldPump => w.(s := w.s.(holdPump := true))
  }

  function Elements(q: seq<Id>): set<Id> {
    set id | id in q
  }

  /** The ids of a set that belong to one class. */
  function InClass(jobs: map<Id, Job>, ids: set<Id>, cookie: bool): set<Id> {
    set id | id in ids && id in jobs && (jobs[id].kind == Cookie) == cookie
  }

  /** Safety: distinct queue entries disjoint from the executing jobs, at most one queued or
      executing job per account, and counters equal to the executing jobs of each class. */
  ghost predicate Safe(w: World) {
    SafeQueue(w) && SafeRunning(w) && SafeCounts(w)
  }

  ghost predicate SafeQueue(w: World) {
    Known(w.s) && SafeEntries(w) && SafePairs(w)
  }

  ghost predicate SafeEntries(w: World)
    requires Known(w.s)
  {
    && (forall k :: 0 <= k < |w.s.queue| ==> w.s.jobs[w.s.queue[k]].status == Queued)
    && (forall k :: 0 <= k < |w.s.queue| ==> w.s.jobs[w.s.queue[k]].account !in w.s.running)
    && (forall k :: 0 <= k < |w.s.queue| ==> w.s.queue[k] !in w.executing)
  }

  ghost predicate SafePairs(w: World)
    requires Known(w.s)
  {
    && (forall i, j :: 0 <= i < j < |w.s.queue| ==> w.s.queue[i] != w.s.queue[j])
    && (forall i, j :: 0 <= i < j < |w.s.queue| ==> w.s.jobs[w.s.queue[i]].account != w.s.jobs[w.s.queue[j]].account)
  }

  ghost predicate SafeRunning(w: World) {
    && (forall a :: a in w.s.running ==>
          w.s.running[a] in w.executing && w.s.running[a] in w.s.jobs && w.s.jobs[w.s.running[a]].account == a)
    && (forall id :: id in w.executing ==>
          id in w.s.jobs && w.s.jobs[id].account in w.s.running && w.s.running[w.s.jobs[id].account] == id)
  }

  ghost predicate SafeCounts(w: World) {
    w.s.active == |InClass(w.s.jobs, w.executing, false)| && w.s.activeCookie == |InClass(w.s.jobs, w.executing, true)|
  }

  ghost predicate WithinLimits(w: World, lim: Limits) {
    w.s.active <= lim.login && w.s.activeCookie <= lim.cookie
  }

  /** First in, first out inside each class, over the whole history. */
  ghost predicate Fifo(w: World) {
    && (forall id :: id in w.accepted ==> id in w.s.jobs)
    && (forall id :: id in w.started ==> id in w.s.jobs)
    && forall cookie :: FifoOf(w, cookie)
  }

  /** No lost wakeup: whenever a queued job could start, some pump call is still to come. */
  ghost predicate WakeupPending(w: World, lim: Limits) {
    !w.s.holdPump && (exists id :: id in w.s.queue && Startable(w.s, id, lim)) ==> w.pendingPumps > 0
  }

  // ---------------------------------------------------------------- every step keeps the invariants

  lemma InClassAdded(jobs: map<Id, Job>, ids: set<Id>, id: Id, cookie: bool)
    requires id in jobs && id !in ids
    ensures |InClass(jobs, ids + {id}, cookie)|
         == |InClass(jobs, ids, cookie)| + if (jobs[id].kind == Cookie) == cookie then 1 else 0
  {
    if (jobs[id].kind == Cookie) == cookie {
      assert InClass(jobs, ids + {id}, cookie) == InClass(jobs, ids, cookie) + {id};
    } else {
      assert InClass(jobs, ids + {id}, cookie) == InClass(jobs, ids, cookie);
    }
  }

  lemma InClassFrame(jobs: map<Id, Job>, jobs': map<Id, Job>, ids: set<Id>, cookie: bool)
    requires forall id :: id in ids ==> id in jobs && id in jobs' && (jobs'[id].kind == Cookie) == (jobs[id].kind == Cookie)
    ensures InClass(jobs', ids, cookie) == InClass(jobs, ids, cookie)
  {
  }

  ghost function WithStarted(w: World, i: nat): World
    requires i < |w.s.queue| && w.s.queue[i] in w.s.jobs
  {
    w.(s := StartAt(w.s, i), executing := w.executing + {w.s.queue[i]})
  }

  lemma SafeStartQueue(w: World, i: nat)
    requires SafeQueue(w) && i < |w.s.queue|
    ensures SafeQueue(WithStarted(w, i))
  {
    SafeStartEntries(w, i);
    SafeStartPairs(w, i);
  }

  lemma WithoutAt<T>(q: seq<T>, i: nat, k: nat)
    requires i < |q| && k < |q| - 1
    ensures Without(q, i)[k] == q[if k < i then k else k + 1]
  {
  }

  lemma SafeStartEntries(w: World, i: nat)
    requires SafeQueue(w) && i < |w.s.queue|
    ensures Known(WithStarted(w, i).s) && SafeEntries(WithStarted(w, i))
  {
    var q, left := w.s.queue, Without(w.s.queue, i);
    forall k | 0 <= k < |left|
      ensures left[k] in w.s.jobs && left[k] !in w.executing + {q[i]} && w.s.jobs[left[k]].status == Queued
      ensures w.s.jobs[left[k]].account !in w.s.running && w.s.jobs[left[k]].account != w.s.jobs[q[i]].account
    {
      WithoutAt(q, i, k);
    }
  }

  lemma SafeStartPairs(w: World, i: nat)
    requires SafeQueue(w) && i < |w.s.queue| && Known(WithStarted(w, i).s)
    ensures SafePairs(WithStarted(w, i))
  {
    var q, left := w.s.queue, Without(w.s.queue, i);
    forall a, b | 0 <= a < b < |left|
      ensures left[a] != left[b] && w.s.jobs[left[a]].account != w.s.jobs[left[b]].account
    {
      WithoutAt(q, i, a);
      WithoutAt(q, i, b);
    }
  }

  lemma SafeStartRunning(w: World, i: nat)
    requires SafeQueue(w) && SafeRunning(w) && i < |w.s.queue|
    ensures SafeRunning(WithStarted(w, i))
  {
  }

  lemma SafeStartCounts(w: World, i: nat)
    requires SafeQueue(w) && SafeCounts(w) && i < |w.s.queue|
    ensures SafeCounts(WithStarted(w, i))
  {
    InClassAdded(w.s.jobs, w.executing, w.s.queue[i], false);
    InClassAdded(w.s.jobs, w.executing, w.s.queue[i], true);
  }

  lemma SafeStart(w: World, i: nat)
    requires Safe(w) && i < |w.s.queue|
    ensures Safe(WithStarted(w, i))
  {
    SafeStartQueue(w, i);
    SafeStartRunning(w, i);
    SafeStartCounts(w, i);
  }

  /** Starting one queued job keeps `p`. */
  ghost predicate KeptByStart(p: World -> bool, w: World, i: nat) {
    p(w) && i < |w.s.queue| ==> w.s.queue[i] in w.s.jobs && p(WithStarted(w, i))
  }

  ghost predicate KeptByStarts(p: World -> bool) {
    forall w: World, i: nat :: KeptByStart(p, w, i)
  }

  /** Then so does a whole pump. */
  lemma {:induction false} PumpKeeps(p: World -> bool, w: World, lim: Limits)
    requires KeptByStarts(p) && p(w)
    ensures var (s', started) := PumpLoop(w.s, lim);
      p(w.(s := s', executing := w.executing + Elements(started)))
    decreases |w.s.queue|
  {
    var i := Scan(w.s, lim);
    if i < 0 {
      assert w.executing + Elements([]) == w.executing;
    } else {
      assert KeptByStart(p, w, i);
      var w1 := WithStarted(w, i);
      PumpKeeps(p, w1, lim);
      var more := PumpLoop(w1.s, lim).1;
      assert w1.executing + Elements(more) == w.executing + Elements([w.s.queue[i]] + more);
    }
  }

  lemma SafePump(w: World, lim: Limits)
    requires Safe(w)
    ensures var (s', started) := PumpLoop(w.s, lim);
      Safe(w.(s := s', executing := w.executing + Elements(started)))
  {
    var p := (v: World) => Safe(v);
    forall v: World, i: nat ensures KeptByStart(p, v, i) {
      if Safe(v) && i < |v.s.queue| {
        SafeStart(v, i);
      }
    }
    PumpKeeps(p, w, lim);
  }

  lemma SafeAccept(w: World, id: Id, account: Id, kind: Kind)
    requires Safe(w) && Enabled(w, Accept(id, account, kind))
    ensures Safe(Apply(w, Accept(id, account, kind)))
  {
    SafeAcceptQueue(w, id, account, kind);
    SafeAcceptRunning(w, id, account, kind);
    var jobs := Apply(w, Accept(id, account, kind)).s.jobs;
    InClassFrame(w.s.jobs, jobs, w.executing, false);
    InClassFrame(w.s.jobs, jobs, w.executing, true);
  }

  lemma SafeAcceptQueue(w: World, id: Id, account: Id, kind: Kind)
    requires SafeQueue(w) && SafeRunning(w) && Enabled(w, Accept(id, account, kind))
    ensures SafeQueue(Apply(w, Accept(id, account, kind)))
  {
  }

  lemma SafeAcceptRunning(w: World, id: Id, account: Id, kind: Kind)
    requires SafeRunning(w) && Enabled(w, Accept(id, account, kind))
    ensures SafeRunning(Apply(w, Accept(id, account, kind)))
  {
  }

  lemma SafeSetStatus(w: World, id: Id, status: Status)
    requires Safe(w) && Enabled(w, SetStatus(id, status))
    ensures Safe(Apply(w, SetStatus(id, status)))
  {
    var jobs := Apply(w, SetStatus(id, status)).s.jobs;
    InClassFrame(w.s.jobs, jobs, w.executing, false);
    InClassFrame(w.s.jobs, jobs, w.executing, true);
  }

  lemma SafeEnd(w: World, id: Id)
    requires Safe(w) && Enabled(w, End(id))
    ensures Safe(Apply(w, End(id)))
  {
    assert (w.executing - {id}) + {id} == w.executing;
    InClassAdded(w.s.jobs, w.executing - {id}, id, false);
    InClassAdded(w.s.jobs, w.executing - {id}, id, true);
  }

  lemma SafeRunPump(w: World, lim: Limits)
    requires Safe(w) && Enabled(w, RunPump(lim))
    ensures Safe(Apply(w, RunPump(lim)))
  {
    if w.s.holdPump {
      assert w.executing + Elements([]) == w.executing;
    } else {
      SafePump(w, lim);
    }
  }

  /** Every step of every interleaving keeps the scheduler safe. */
  lemma StepKeepsSafe(w: World, step: Step)
    requires Safe(w) && Enabled(w, step)
    ensures Safe(Apply(w, step))
  {
    match step
    case Accept(id, account, kind) => SafeAccept(w, id, account, kind);
    case RunPump(lim) => SafeRunPump(w, lim);
    case SetStatus(id, status) => SafeSetStatus(w, id, status);
    case End(id) => SafeEnd(w, id);
    case _ =>
  }

  /** The limits a step may run under: a pump never sees more than the largest setting. */
  predicate Under(step: Step, lim: Limits) {
    step.RunPump? ==> step.lim.login <= lim.login && step.lim.cookie <= lim.cookie
  }

  lemma StepKeepsLimits(w: World, step: Step, lim: Limits)
    requires Safe(w) && Enabled(w, step) && Under(step, lim) && WithinLimits(w, lim)
    ensures WithinLimits(Apply(w, step), lim)
  {
    if step.RunPump? {
      PumpStartsClassPrefix(w.s, step.lim, false);
      PumpStartsClassPrefix(w.s, step.lim, true);
    }
  }

  ghost predicate FifoOf(w: World, cookie: bool) {
    OfClass(w.s.jobs, w.accepted, cookie) == OfClass(w.s.jobs, w.started, cookie) + OfClass(w.s.jobs, w.s.queue, cookie)
  }

  lemma FifoAccept(w: World, id: Id, account: Id, kind: Kind, cookie: bool)
    requires Safe(w) && Fifo(w) && Enabled(w, Accept(id, account, kind))
    ensures FifoOf(Apply(w, Accept(id, account, kind)), cookie)
  {
    var jobs := Apply(w, Accept(id, account, kind)).s.jobs;
    OfClassFrame(w.s.jobs, jobs, w.accepted, cookie);
    OfClassFrame(w.s.jobs, jobs, w.started, cookie);
    OfClassFrame(w.s.jobs, jobs, w.s.queue, cookie);
    OfClassConcat(jobs, w.accepted, [id], cookie);
    OfClassConcat(jobs, w.s.queue, [id], cookie);
    assert FifoOf(w, cookie);
    Seqs.Assoc(OfClass(jobs, w.started, cookie), OfClass(jobs, w.s.queue, cookie), OfClass(jobs, [id], cookie));
  }

  lemma MoveSplit<T>(x: seq<T>, y: seq<T>, n: nat)
    requires n <= |y|
    ensures (x + y[..n]) + y[n..] == x + y
  {
  }

  lemma FifoRunPump(w: World, lim: Limits, cookie: bool)
    requires Safe(w) && Fifo(w) && Enabled(w, RunPump(lim))
    ensures FifoOf(Apply(w, RunPump(lim)), cookie)
  {
    assert FifoOf(w, cookie);
    if w.s.holdPump {
      assert w.started + [] == w.started;
    } else {
      var (s', started) := PumpLoop(w.s, lim);
      PumpStartsClassPrefix(w.s, lim, cookie);
      OfClassConcat(w.s.jobs, w.started, started, cookie);
      MoveSplit(OfClass(w.s.jobs, w.started, cookie), OfClass(w.s.jobs, w.s.queue, cookie), Fits(w.s, lim, cookie));
    }
  }

  lemma FifoSetStatus(w: World, id: Id, status: Status, cookie: bool)
    requires Safe(w) && Fifo(w) && Enabled(w, SetStatus(id, status))
    ensures FifoOf(Apply(w, SetStatus(id, status)), cookie)
  {
    var jobs := Apply(w, SetStatus(id, status)).s.jobs;
    OfClassFrame(w.s.jobs, jobs, w.accepted, cookie);
    OfClassFrame(w.s.jobs, jobs, w.started, cookie);
    OfClassFrame(w.s.jobs, jobs, w.s.queue, cookie);
    assert FifoOf(w, cookie);
  }

  /** Every step keeps first-in-first-out order inside each class. */
  lemma StepKeepsFifo(w: World, step: Step)
    requires Safe(w) && Enabled(w, step) && Fifo(w)
    ensures Fifo(Apply(w, step))
  {
    if step.RunPump? {
      StartedAreKnown(w.s, step.lim);
    }
    forall cookie ensures FifoOf(Apply(w, step), cookie) {
      assert FifoOf(w, cookie);
      match step
      case Accept(id, account, kind) => FifoAccept(w, id, account, kind, cookie);
      case RunPump(lim) => FifoRunPump(w, lim, cookie);
      case SetStatus(id, status) => FifoSetStatus(w, id, status, cookie);
      case _ =>
    }
  }

  lemma {:induction false} StartedAreKnown(s: State, lim: Limits)
    ensures PumpLoop(s, lim).0.jobs == s.jobs
    ensures forall id :: id in PumpLoop(s, lim).1 ==> id in s.jobs
    decreases |s.queue|
  {
    var i := Scan(s, lim);
    if i >= 0 {
      if s.queue[i] !in s.jobs {
        StartedAreKnown(s.(queue := Without(s.queue, i)), lim);
      } else {
        StartedAreKnown(StartAt(s, i), lim);
      }
    }
  }

  /** The branch of the pump that drops a vanished job is never taken: every id it removes
      from the queue is started. */
  lemma {:induction false} PumpDropsNothing(s: State, lim: Limits)
    requires Known(s)
    ensures |PumpLoop(s, lim).0.queue| + |PumpLoop(s, lim).1| == |s.queue|
    decreases |s.queue|
  {
    var i := Scan(s, lim);
    if i >= 0 {
      assert Known(StartAt(s, i));
      PumpDropsNothing(StartAt(s, i), lim);
    }
  }

  lemma StepKeepsWakeup(w: World, step: Step, lim: Limits)
    requires Safe(w) && Enabled(w, step) && WakeupPending(w, lim)
    requires step.RunPump? ==> step.lim == lim
    ensures WakeupPending(Apply(w, step), lim)
  {
    match step
    case RunPump(_) => PumpLeavesNothingStartable(w.s, lim);
    case SetStatus(id, _) =>
      var s' := Apply(w, step).s;
      forall q | q in s'.queue && Startable(s', q, lim) ensures Startable(w.s, q, lim) {
      }
    case _ =>
  }

  // ---------------------------------------------------------------- whole runs

  datatype Outcome = Stuck | At(world: World)

  /** The world after a sequence of steps, each of which must be enabled when it is taken. */
  function After(steps: seq<Step>): Outcome {
    if steps == [] then At(Initial)
    else
      var last := steps[|steps| - 1];
      match After(steps[..|steps| - 1])
      case Stuck => Stuck
      case At(v) => if Enabled(v, last) then At(Apply(v, last)) else Stuck
  }

  /** In every reachable world the scheduler is safe, first-in-first-out per class, and inside
      the largest limits any pump ran under. */
  lemma {:induction false} AlwaysSafe(steps: seq<Step>, lim: Limits)
    requires After(steps).At?
    requires lim.login >= 0 && lim.cookie >= 0 && forall step :: step in steps ==> Under(step, lim)
    ensures var w := After(steps).world; Safe(w) && Fifo(w) && WithinLimits(w, lim)
    decreases |steps|
  {
    if steps == [] {
      assert InClass(map[], {}, false) == {} && InClass(map[], {}, true) == {};
    } else {
      var before, step := steps[..|steps| - 1], steps[|steps| - 1];
      AlwaysSafe(before, lim);
      var v := After(before).world;
      StepKeepsSafe(v, step);
      StepKeepsFifo(v, step);
      StepKeepsLimits(v, step, lim);
    }
  }

  /** With constant limits no wakeup is lost, in any interleaving. */
  lemma {:induction false} NoLostWakeup(steps: seq<Step>, lim: Limits)
    requires After(steps).At?
    requires lim.login >= 0 && lim.cookie >= 0 && forall step :: step in steps && step.RunPump? ==> step.lim == lim
    ensures WakeupPending(After(steps).world, lim)
    decreases |steps|
  {
    if steps != [] {
      var before, step := steps[..|steps| - 1], steps[|steps| - 1];
      AlwaysSafe(before, lim);
      NoLostWakeup(before, lim);
      StepKeepsWakeup(After(before).world, step, lim);
    }
  }

  lemma IdleHeadIsStartable(w: World, lim: Limits)
    requires Safe(w) && w.executing == {} && lim.login >= 1 && lim.cookie >= 1
    ensures w.s.queue != [] ==> w.s.queue[0] in w.s.queue && Startable(w.s, w.s.queue[0], lim)
  {
    assert InClass(w.s.jobs, {}, false) == {} && InClass(w.s.jobs, {}, true) == {};
  }

  /** A quiet scheduler has nothing left to do: when no worker runs and no pump call is
      pending, the queue is empty and every accepted job of each class was started, in order. */
  lemma QuietMeansDone(steps: seq<Step>, lim: Limits, cookie: bool)
    requires After(steps).At?
    requires lim.login >= 1 && lim.cookie >= 1 && forall step :: step in steps && step.RunPump? ==> step.lim == lim
    requires var w := After(steps).world; !w.s.holdPump && w.pendingPumps == 0 && w.executing == {}
    ensures var w := After(steps).world;
      w.s.queue == [] && OfClass(w.s.jobs, w.started, cookie) == OfClass(w.s.jobs, w.accepted, cookie)
  {
    AlwaysSafe(steps, lim);
    IdleHeadIsStartable(After(steps).world, lim);
    NoLostWakeup(steps, lim);
    var w := After(steps).world;
    assert FifoOf(w, cookie);
    assert OfClass(w.s.jobs, w.started, cookie) + [] == OfClass(w.s.jobs, w.started, cookie);
  }
}

/** The scheduler seen from the requests for jobs: what runs, waits and was started, by the kind and
    account each job was asked for with. */
module JobKinds {
  import opened Scheduler
  import Seqs

  datatype Ask = Ask(id: Id, account: Id, kind: Kind)

  /** The jobs accepted, in order, as their steps asked for them. */
  function Asks(steps: seq<Step>): seq<Ask>
    decreases |steps|
  {
    if steps == [] then []
    else
      Asks(steps[..|steps| - 1])
      + match steps[|steps| - 1] case Accept(id, account, kind) => [Ask(id, account, kind)] case _ => []
  }

  function IdsOf(asks: seq<Ask>): seq<Id> {
    seq(|asks|, k requires 0 <= k < |asks| => asks[k].id)
  }

  /** The job table holds exactly the jobs asked for, each with its account and kind. */
  ghost predicate Kept(asks: seq<Ask>, w: World) {
    && w.accepted == IdsOf(asks)
    && (forall i, j :: 0 <= i < j < |asks| ==> asks[i].id != asks[j].id)
    && Holds(asks, w.s.jobs)
  }

  ghost predicate Holds(asks: seq<Ask>, jobs: map<Id, Job>) {
    && (forall k :: 0 <= k < |asks| ==>
          asks[k].id in jobs && jobs[asks[k].id].account == asks[k].account && jobs[asks[k].id].kind == asks[k].kind)
    && (forall id :: id in jobs ==> Known(asks, id))
  }

  ghost predicate Known(asks: seq<Ask>, id: Id) {
    exists k :: 0 <= k < |asks| && asks[k].id == id
  }

  lemma IdsSnoc(asks: seq<Ask>, a: Ask)
    ensures IdsOf(asks + [a]) == IdsOf(asks) + [a.id]
  {
  }

  lemma KnownSnoc(asks: seq<Ask>, a: Ask, id: Id)
    ensures Known(asks + [a], id) <==> Known(asks, id) || a.id == id
  {
    var all := asks + [a];
    assert all[|asks|] == a && forall k :: 0 <= k < |asks| ==> all[k] == asks[k];
  }

  lemma HoldsSnoc(asks: seq<Ask>, jobs: map<Id, Job>, a: Ask, status: Status)
    requires Holds(asks, jobs) && a.id !in jobs
    ensures Holds(asks + [a], jobs[a.id := Job(a.account, a.kind, status)])
  {
    forall id | id in jobs || id == a.id ensures Known(asks + [a], id) {
      KnownSnoc(asks, a, id);
    }
  }

  lemma StatusKeepsHolds(asks: seq<Ask>, jobs: map<Id, Job>, id: Id, status: Status)
    requires Holds(asks, jobs) && id in jobs
    ensures Holds(asks, jobs[id := jobs[id].(status := status)])
  {
  }

  lemma AcceptKeepsAsks(asks: seq<Ask>, w: World, a: Ask)
    requires Kept(asks, w) && Enabled(w, Accept(a.id, a.account, a.kind))
    ensures Kept(asks + [a], Apply(w, Accept(a.id, a.account, a.kind)))
  {
    HoldsSnoc(asks, w.s.jobs, a, Queued);
    IdsSnoc(asks, a);
  }

  lemma StepKeepsAsks(asks: seq<Ask>, w: World, step: Step)
    requires Kept(asks, w) && Enabled(w, step) && !step.Accept?
    ensures Kept(asks, Apply(w, step))
  {
    match step
    case RunPump(lim) => StartedAreKnown(w.s, lim);
    case SetStatus(id, status) => StatusKeepsHolds(asks, w.s.jobs, id, status);
    case _ =>
  }

  /** In every reachable world the job table says of each accepted job what its step asked for. */
  lemma {:induction false} AlwaysKept(steps: seq<Step>)
    requires After(steps).At?
    ensures Kept(Asks(steps), After(steps).world)
    decreases |steps|
  {
    if steps != [] {
      var before, step := steps[..|steps| - 1], steps[|steps| - 1];
      AlwaysKept(before);
      if step.Accept? {
        AcceptKeepsAsks(Asks(before), After(before).world, Ask(step.id, step.account, step.kind));
      } else {
        StepKeepsAsks(Asks(before), After(before).world, step);
        assert Asks(before) + [] == Asks(before);
      }
    }
  }

  // ---------------------------------------------------------------- classes by what was asked for

  /** A job asked for as a cookie job, or as one of the others. */
  ghost predicate AskedAs(asks: seq<Ask>, id: Id, cookie: bool) {
    exists k :: 0 <= k < |asks| && asks[k].id == id && (asks[k].kind == Cookie) == cookie
  }

  /** The jobs of a sequence that were asked for in a class. */
  ghost function Of(asks: seq<Ask>, q: seq<Id>, cookie: bool): seq<Id> {
    if q == [] then [] else (if AskedAs(asks, q[0], cookie) then [q[0]] else []) + Of(asks, q[1..], cookie)
  }

  ghost function Among(asks: seq<Ask>, ids: set<Id>, cookie: bool): set<Id> {
    set id | id in ids && AskedAs(asks, id, cookie)
  }

  /** All jobs asked for in a class, in order. */
  function Class(asks: seq<Ask>, cookie: bool): seq<Id>
    decreases |asks|
  {
    if asks == [] then []
    else
      var last := asks[|asks| - 1];
      Class(asks[..|asks| - 1], cookie) + if (last.kind == Cookie) == cookie then [last.id] else []
  }

  lemma AskedAsHeld(asks: seq<Ask>, w: World, id: Id, cookie: bool)
    requires Kept(asks, w)
    ensures AskedAs(asks, id, cookie) <==> id in w.s.jobs && (w.s.jobs[id].kind == Cookie) == cookie
  {
    if id in w.s.jobs {
      assert Known(asks, id);
    }
  }

  lemma {:induction false} OfIsOfClass(asks: seq<Ask>, w: World, q: seq<Id>, cookie: bool)
    requires Kept(asks, w)
    ensures Of(asks, q, cookie) == OfClass(w.s.jobs, q, cookie)
  {
    if q != [] {
      AskedAsHeld(asks, w, q[0], cookie);
      OfIsOfClass(asks, w, q[1..], cookie);
    }
  }

  lemma AmongIsInClass(asks: seq<Ask>, w: World, ids: set<Id>, cookie: bool)
    requires Kept(asks, w)
    ensures Among(asks, ids, cookie) == InClass(w.s.jobs, ids, cookie)
  {
    forall id ensures id in Among(asks, ids, cookie) <==> id in InClass(w.s.jobs, ids, cookie) {
      AskedAsHeld(asks, w, id, cookie);
    }
  }

  lemma {:induction false} ClassIsOf(asks: seq<Ask>, n: nat, jobs: map<Id, Job>, cookie: bool)
    requires n <= |asks| && Holds(asks, jobs)
    ensures Class(asks[..n], cookie) == OfClass(jobs, IdsOf(asks[..n]), cookie)
  {
    if n > 0 {
      ClassIsOf(asks, n - 1, jobs, cookie);
      Seqs.PrefixSnoc(asks, n);
      ClassSnoc(asks[..n - 1], asks[n - 1], cookie);
      IdsSnoc(asks[..n - 1], asks[n - 1]);
      OfClassConcat(jobs, IdsOf(asks[..n - 1]), [asks[n - 1].id], cookie);
      OneOfClass(jobs, asks[n - 1].id, cookie);
    }
  }

  lemma ClassSnoc(asks: seq<Ask>, a: Ask, cookie: bool)
    ensures Class(asks + [a], cookie) == Class(asks, cookie) + if (a.kind == Cookie) == cookie then [a.id] else []
  {
    Seqs.FrontOfSnoc(asks, a);
  }

  lemma OneOfClass(jobs: map<Id, Job>, id: Id, cookie: bool)
    requires id in jobs
    ensures OfClass(jobs, [id], cookie) == if (jobs[id].kind == Cookie) == cookie then [id] else []
  {
  }

  lemma AcceptedOfClass(asks: seq<Ask>, w: World, cookie: bool)
    requires Kept(asks, w)
    ensures OfClass(w.s.jobs, w.accepted, cookie) == Class(asks, cookie)
  {
    ClassIsOf(asks, |asks|, w.s.jobs, cookie);
    assert asks[..|asks|] == asks;
  }

  // ---------------------------------------------------------------- whole runs

  /** The job waits or runs. */
  predicate Open(w: World, id: Id) {
    id in w.s.queue || id in w.executing
  }

  /** Each account has at most one job that waits or runs. */
  ghost predicate OnePerAccount(asks: seq<Ask>, w: World) {
    forall i, j :: 0 <= i < j < |asks| && asks[i].account == asks[j].account ==>
      !(Open(w, asks[i].id) && Open(w, asks[j].id))
  }

  lemma SafeIsOnePerAccount(asks: seq<Ask>, w: World)
    requires Kept(asks, w) && Safe(w)
    ensures OnePerAccount(asks, w)
  {
    forall i, j | 0 <= i < j < |asks| && Open(w, asks[i].id) && Open(w, asks[j].id)
      ensures asks[i].account != asks[j].account
    {
      OpenAreApart(w, asks[i].id, asks[j].id);
    }
  }

  lemma OpenAreApart(w: World, a: Id, b: Id)
    requires Safe(w) && Open(w, a) && Open(w, b) && a != b
    ensures a in w.s.jobs && b in w.s.jobs && w.s.jobs[a].account != w.s.jobs[b].account
  {
    if a in w.s.queue && b in w.s.queue {
      var i :| 0 <= i < |w.s.queue| && w.s.queue[i] == a;
      var j :| 0 <= j < |w.s.queue| && w.s.queue[j] == b;
      assert i < j || j < i;
    }
  }

  /** Through every interleaving, by the kind each job was asked for with: the counters are exact
      and within the limits, each account has at most one open job, and of each class the jobs
      asked for are, in order, those started followed by those that wait. */
  lemma AlwaysByKind(steps: seq<Step>, lim: Limits, cookie: bool)
    requires After(steps).At?
    requires lim.login >= 0 && lim.cookie >= 0 && forall step :: step in steps ==> Under(step, lim)
    ensures var asks, w := Asks(steps), After(steps).world;
      && Count(w.s, cookie) == |Among(asks, w.executing, cookie)| <= Cap(lim, cookie)
      && OnePerAccount(asks, w)
      && Class(asks, cookie) == Of(asks, w.started, cookie) + Of(asks, w.s.queue, cookie)
  {
    AlwaysKept(steps);
    AlwaysSafe(steps, lim);
    var asks, w := Asks(steps), After(steps).world;
    AmongIsInClass(asks, w, w.executing, cookie);
    SafeIsOnePerAccount(asks, w);
    assert FifoOf(w, cookie);
    AcceptedOfClass(asks, w, cookie);
    OfIsOfClass(asks, w, w.started, cookie);
    OfIsOfClass(asks, w, w.s.queue, cookie);
  }

  /** How many more jobs of a class may start. */
  ghost function Free(asks: seq<Ask>, w: World, lim: Limits, cookie: bool): nat {
    var running := |Among(asks, w.executing, cookie)|;
    if Cap(lim, cookie) > running then Cap(lim, cookie) - running else 0
  }

  function Lesser(a: nat, b: nat): nat {
    if a < b then a else b
  }

  lemma PumpOf(asks: seq<Ask>, w: World, lim: Limits, cookie: bool)
    requires Kept(asks, w) && Safe(w) && Count(w.s, cookie) == |Among(asks, w.executing, cookie)|
    ensures var waiting := Of(asks, w.s.queue, cookie);
      var n := Lesser(Free(asks, w, lim, cookie), |waiting|);
      && Of(asks, PumpLoop(w.s, lim).1, cookie) == waiting[..n]
      && Of(asks, PumpLoop(w.s, lim).0.queue, cookie) == waiting[n..]
  {
    PumpStartsClassPrefix(w.s, lim, cookie);
    OfIsOfClass(asks, w, w.s.queue, cookie);
    OfIsOfClass(asks, w, PumpLoop(w.s, lim).1, cookie);
    OfIsOfClass(asks, w, PumpLoop(w.s, lim).0.queue, cookie);
    assert Fits(w.s, lim, cookie) == Lesser(Free(asks, w, lim, cookie), |Of(asks, w.s.queue, cookie)|);
  }

  /** A pump in any reachable world starts, of each class asked for, exactly the first waiting jobs,
      as many as the class has room for. */
  lemma PumpByKind(steps: seq<Step>, lim: Limits, most: Limits, cookie: bool)
    requires After(steps).At? && !After(steps).world.s.holdPump
    requires most.login >= 0 && most.cookie >= 0 && forall step :: step in steps ==> Under(step, most)
    ensures var asks, w := Asks(steps), After(steps).world;
      var waiting := Of(asks, w.s.queue, cookie);
      var n := Lesser(Free(asks, w, lim, cookie), |waiting|);
      && Of(asks, PumpAll(w.s, lim).1, cookie) == waiting[..n]
      && Of(asks, PumpAll(w.s, lim).0.queue, cookie) == waiting[n..]
  {
    AlwaysKept(steps);
    AlwaysSafe(steps, most);
    AlwaysByKind(steps, most, cookie);
    PumpOf(Asks(steps), After(steps).world, lim, cookie);
  }

  /** When no worker runs and no pump call is pending, every job asked for was started, each class
      in the order it was asked for. */
  lemma QuietByKind(steps: seq<Step>, lim: Limits, cookie: bool)
    requires After(steps).At?
    requires lim.login >= 1 && lim.cookie >= 1 && forall step :: step in steps && step.RunPump? ==> step.lim == lim
    requires var w := After(steps).world; !w.s.holdPump && w.pendingPumps == 0 && w.executing == {}
    ensures var w := After(steps).world;
      w.s.queue == [] && Of(Asks(steps), w.started, cookie) == Class(Asks(steps), cookie)
  {
    QuietMeansDone(steps, lim, cookie);
    AlwaysKept(steps);
    AcceptedOfClass(Asks(steps), After(steps).world, cookie);
    OfIsOfClass(Asks(steps), After(steps).world, After(steps).world.started, cookie);
  }

  // ---------------------------------------------------------------- who is refused

  /** Some job that waits or runs was asked for the account. */
  ghost predicate Taken(asks: seq<Ask>, w: World, account: Id) {
    exists k :: 0 <= k < |asks| && asks[k].account == account && Open(w, asks[k].id)
  }

  lemma BusyIsTaken(asks: seq<Ask>, w: World, account: Id)
    requires Kept(asks, w) && Safe(w) && Busy(w.s, account)
    ensures Taken(asks, w, account)
  {
    var id := BusyWith(w, account);
    assert Known(asks, id);
    var k :| 0 <= k < |asks| && asks[k].id == id;
    assert asks[k].account == account && Open(w, asks[k].id);
  }

  lemma TakenIsBusy(asks: seq<Ask>, w: World, account: Id)
    requires Kept(asks, w) && Safe(w) && Taken(asks, w, account)
    ensures Busy(w.s, account)
  {
    var k :| 0 <= k < |asks| && asks[k].account == account && Open(w, asks[k].id);
    OpenIsBusy(w, asks[k].id);
  }

  /** A job is refused for being in the way exactly when one that waits or runs was asked for the
      same account. */
  lemma BusyExactly(steps: seq<Step>, lim: Limits, account: Id)
    requires After(steps).At?
    requires lim.login >= 0 && lim.cookie >= 0 && forall step :: step in steps ==> Under(step, lim)
    ensures Busy(After(steps).world.s, account) <==> Taken(Asks(steps), After(steps).world, account)
  {
    AlwaysKept(steps);
    AlwaysSafe(steps, lim);
    if Busy(After(steps).world.s, account) {
      BusyIsTaken(Asks(steps), After(steps).world, account);
    }
    if Taken(Asks(steps), After(steps).world, account) {
      TakenIsBusy(Asks(steps), After(steps).world, account);
    }
  }

  lemma BusyWith(w: World, account: Id) returns (id: Id)
    requires Safe(w) && Busy(w.s, account)
    ensures id in w.s.jobs && Open(w, id) && w.s.jobs[id].account == account
  {
    if account in w.s.running {
      id := w.s.running[account];
    } else {
      var i :| 0 <= i < |w.s.queue| && w.s.queue[i] in w.s.jobs && w.s.jobs[w.s.queue[i]].account == account;
      id := w.s.queue[i];
    }
  }

  lemma OpenIsBusy(w: World, id: Id)
    requires Safe(w) && id in w.s.jobs && Open(w, id)
    ensures Busy(w.s, w.s.jobs[id].account)
  {
    if id in w.s.queue {
      var k :| 0 <= k < |w.s.queue| && w.s.queue[k] == id;
    }
  }
}

/** Many proxied requests sharing one balancer. Every critical section of the balancer's mutex
    is one step; requests, quota refreshes and read-only rankings interleave in any order. */
module Requests {
  import opened Balancing = Balancer
  import opened RateLimit

  datatype Holding = Free | Holds(id: Id)

  /** One request between its critical sections: the accounts it tried, in order, and the
      reservation it has not ended yet. */
  datatype Request = Request(tried: seq<Id>, holding: Holding, done: bool)

  /** `history`, `ended` and `refreshes` record everything that happened: every pick, every
      ended reservation, every quota refresh still running. */
  datatype World = World(
    lb: State, clock: int, requests: seq<Request>, refreshes: multiset<Id>, history: seq<Pick>, ended: multiset<Id>)

  datatype Step =
    | Arrive
    | Attempt(r: nat, accounts: seq<Account>, now: int, rpm: int, retries: int)
    | Finish(r: nat, again: bool)
    | Cool(id: Id, now: int, d: int)
    | Refresh(id: Id)
    | Refreshed(id: Id)
    | Rank(accounts: seq<Account>, now: int)
    | Peek(id: Id, now: int)

  const START := World(EMPTY, 0, [], multiset{}, [], multiset{})

  /** Reservations read the clock under the lock, so their times never decrease; a ranking or a
      look at one account may come with an older reading. */
  predicate Enabled(w: World, step: Step) {
    match step
    case Attempt(r, _, now, _, _) =>
      r < |w.requests| && w.requests[r].holding.Free? && !w.requests[r].done && w.clock <= now
    case Finish(r, _) => r < |w.requests| && w.requests[r].holding.Holds?
    case Refresh(id) => id != ""
    case Refreshed(id) => id in w.refreshes
    case _ => true
  }

  function Later(a: int, b: int): int {
    if a < b then b else a
  }

  function Skipped(q: Request): set<Id> {
    set id | id in q.tried
  }

  function Attempted(w: World, r: nat, accounts: seq<Account>, now: int, rpm: int): World
    requires r < |w.requests|
  {
    var q := w.requests[r];
    var (lb, choice) := Reserve(w.lb, accounts, Skipped(q), now, rpm);
    match choice
    case Nobody => w.(lb := lb, clock := now, requests := w.requests[r := q.(done := true)])
    case Chosen(a) =>
      var id := AccountId(a);
      w.(lb := lb, clock := now, history := w.history + [Pick(id, now, rpm)],
         requests := w.requests[r := Request(q.tried + [id], Holds(id), false)])
  }

  function Apply(w: World, step: Step): World
    requires Enabled(w, step)
  {
    match step
    case Arrive => w.(requests := w.requests + [Request([], Free, false)])
    case Attempt(r, accounts, now, rpm, retries) =>
      if |w.requests[r].tried| >= MaxAttempts(retries) then
        w.(requests := w.requests[r := w.requests[r].(done := true)])
      else Attempted(w, r, accounts, now, rpm)
    case Finish(r, again) =>
      var q := w.requests[r];
      w.(lb := End(w.lb, q.holding.id), ended := w.ended + multiset{q.holding.id},
         requests := w.requests[r := q.(holding := Free, done := !again)])
    case Cool(id, now, d) => w.(lb := Cooled(w.lb, id, now, d))
    case Refresh(id) => w.(lb := Hold(w.lb, id), refreshes := w.refreshes + multiset{id})
    case Refreshed(id) => w.(lb := Unhold(w.lb, id), refreshes := w.refreshes - multiset{id})
    case Rank(accounts, now) => w.(lb := LookedAll(w.lb, accounts, {}, now), clock := Later(w.clock, now))
    case Peek(id, now) => w.(lb := Prune(Warmed(w.lb, id, now), id, now), clock := Later(w.clock, now))
  }

  ghost predicate Runs(w: World, run: seq<Step>)
    decreases |run|, 0
  {
    run != [] ==> Runs(w, run[..|run| - 1]) && Enabled(After(w, run[..|run| - 1]), run[|run| - 1])
  }

  ghost function After(w: World, run: seq<Step>): World
    requires Runs(w, run)
    decreases |run|, 1
  {
    if run == [] then w else Apply(After(w, run[..|run| - 1]), run[|run| - 1])
  }

  // ---------------------------------------------------------------- counting

  function One(q: Request, id: Id): nat {
    if q.holding == Holds(id) then 1 else 0
  }

  /** The reservations of an account that are held and not ended. */
  function Holders(requests: seq<Request>, id: Id): nat
    decreases |requests|
  {
    if requests == [] then 0
    else Holders(requests[..|requests| - 1], id) + One(requests[|requests| - 1], id)
  }

  lemma {:induction false} HoldersUpdate(requests: seq<Request>, r: nat, q: Request, id: Id)
    requires r < |requests|
    ensures Holders(requests[r := q], id) == Holders(requests, id) - One(requests[r], id) + One(q, id)
    decreases |requests|
  {
    var front, updated := requests[..|requests| - 1], requests[r := q];
    if r == |requests| - 1 {
      assert updated[..|updated| - 1] == front;
    } else {
      HoldersUpdate(front, r, q, id);
      assert updated[..|updated| - 1] == front[r := q];
    }
  }

  lemma HoldersSnoc(requests: seq<Request>, q: Request, id: Id)
    ensures Holders(requests + [q], id) == Holders(requests, id) + One(q, id)
  {
    assert (requests + [q])[..|requests|] == requests;
  }

  // ---------------------------------------------------------------- the invariants

  /** The counter shows the reservations not yet ended, and picks are conserved. */
  ghost predicate CountedOf(w: World, id: Id) {
    && (id != "" ==> Count(w.lb.inflight, id) == Holders(w.requests, id))
    && |Times(w.history, id)| == Holders(w.requests, id) + w.ended[id]
  }

  ghost predicate Counted(w: World) {
    forall id :: CountedOf(w, id)
  }

  ghost predicate RefreshesCounted(w: World) {
    w.refreshes[""] == 0 && forall id :: id != "" ==> Count(w.lb.refreshing, id) == w.refreshes[id]
  }

  ghost predicate Orderly(q: Request) {
    && |q.tried| <= 33
    && (forall i, j :: 0 <= i < j < |q.tried| ==> q.tried[i] != q.tried[j])
    && (q.holding.Holds? ==> q.tried != [] && q.tried[|q.tried| - 1] == q.holding.id && !q.done)
  }

  ghost predicate AllOrderly(w: World) {
    forall r :: 0 <= r < |w.requests| ==> Orderly(w.requests[r])
  }

  ghost predicate RateKept(w: World) {
    Remembers(w.lb, w.history, w.clock) && Limited(w.history)
  }

  ghost predicate Safe(w: World) {
    Counted(w) && RefreshesCounted(w) && AllOrderly(w) && RateKept(w)
  }

  // ---------------------------------------------------------------- conservation of reservations

  lemma SameHoldersCounted(w: World, v: World)
    requires Counted(w) && v.lb.inflight == w.lb.inflight && v.history == w.history && v.ended == w.ended
    requires forall id :: Holders(v.requests, id) == Holders(w.requests, id)
    ensures Counted(v)
  {
    forall id ensures CountedOf(v, id) {
      assert CountedOf(w, id);
    }
  }

  lemma ReservedCounted(w: World, r: nat, lb: State, id: Id, now: int, rpm: int)
    requires Counted(w) && r < |w.requests| && w.requests[r].holding.Free?
    requires lb.inflight == w.lb.inflight
    ensures Counted(w.(lb := Reserved(lb, id, now), clock := now, history := w.history + [Pick(id, now, rpm)],
                       requests := w.requests[r := Request(w.requests[r].tried + [id], Holds(id), false)]))
  {
    var q := Request(w.requests[r].tried + [id], Holds(id), false);
    var v := w.(lb := Reserved(lb, id, now), clock := now, history := w.history + [Pick(id, now, rpm)],
                requests := w.requests[r := q]);
    ReservedInflight(lb, id, now);
    forall other ensures CountedOf(v, other) {
      assert CountedOf(w, other);
      HoldersUpdate(w.requests, r, q, other);
      TimesSnoc(w.history, Pick(id, now, rpm), other);
    }
  }

  lemma AttemptKeepsCounted(w: World, r: nat, accounts: seq<Account>, now: int, rpm: int)
    requires Counted(w) && r < |w.requests| && w.requests[r].holding.Free?
    ensures Counted(Attempted(w, r, accounts, now, rpm))
  {
    var q := w.requests[r];
    var looked := LookedAll(w.lb, accounts, Skipped(q), now);
    LookingKeepsOrder(w.lb, accounts, Skipped(q), now);
    match Reserve(w.lb, accounts, Skipped(q), now, rpm).1
    case Chosen(a) => ReservedCounted(w, r, looked, AccountId(a), now, rpm);
    case Nobody =>
      forall id ensures Holders(w.requests[r := q.(done := true)], id) == Holders(w.requests, id) {
        HoldersUpdate(w.requests, r, q.(done := true), id);
      }
      SameHoldersCounted(w, Attempted(w, r, accounts, now, rpm));
  }

  lemma FinishKeepsCounted(w: World, r: nat, again: bool)
    requires Counted(w) && Enabled(w, Finish(r, again))
    ensures Counted(Apply(w, Finish(r, again)))
  {
    var q := w.requests[r];
    var v := Apply(w, Finish(r, again));
    forall id ensures CountedOf(v, id) {
      assert CountedOf(w, id);
      HoldersUpdate(w.requests, r, q.(holding := Free, done := !again), id);
    }
  }

  lemma StepKeepsCounted(w: World, step: Step)
    requires Counted(w) && Enabled(w, step)
    ensures Counted(Apply(w, step))
  {
    match step
    case Arrive =>
      forall id ensures Holders(w.requests + [Request([], Free, false)], id) == Holders(w.requests, id) {
        HoldersSnoc(w.requests, Request([], Free, false), id);
      }
      SameHoldersCounted(w, Apply(w, step));
    case Attempt(r, accounts, now, rpm, retries) =>
      var q := w.requests[r];
      if |q.tried| >= MaxAttempts(retries) {
        forall id ensures Holders(w.requests[r := q.(done := true)], id) == Holders(w.requests, id) {
          HoldersUpdate(w.requests, r, q.(done := true), id);
        }
        SameHoldersCounted(w, Apply(w, step));
      } else {
        AttemptKeepsCounted(w, r, accounts, now, rpm);
      }
    case Finish(r, again) => FinishKeepsCounted(w, r, again);
    case Rank(accounts, now) =>
      LookingKeepsOrder(w.lb, accounts, {}, now);
      SameHoldersCounted(w, Apply(w, step));
    case _ => SameHoldersCounted(w, Apply(w, step));
  }

  // ---------------------------------------------------------------- conservation of refreshes

  lemma AttemptKeepsRefreshing(w: World, r: nat, accounts: seq<Account>, now: int, rpm: int)
    requires r < |w.requests|
    ensures Attempted(w, r, accounts, now, rpm).lb.refreshing == w.lb.refreshing
    ensures Attempted(w, r, accounts, now, rpm).refreshes == w.refreshes
  {
    var skip := Skipped(w.requests[r]);
    LookingKeepsOrder(w.lb, accounts, skip, now);
    match Reserve(w.lb, accounts, skip, now, rpm).1
    case Nobody =>
    case Chosen(a) => ReservedInflight(LookedAll(w.lb, accounts, skip, now), AccountId(a), now);
  }

  lemma HeldIsCounted(w: World, id: Id)
    requires RefreshesCounted(w) && id != ""
    ensures RefreshesCounted(w.(lb := Hold(w.lb, id), refreshes := w.refreshes + multiset{id}))
  {
  }

  lemma UnheldIsCounted(w: World, id: Id)
    requires RefreshesCounted(w) && id in w.refreshes
    ensures RefreshesCounted(w.(lb := Unhold(w.lb, id), refreshes := w.refreshes - multiset{id}))
  {
  }

  lemma SameRefreshing(w: World, v: World)
    requires RefreshesCounted(w) && v.lb.refreshing == w.lb.refreshing && v.refreshes == w.refreshes
    ensures RefreshesCounted(v)
  {
  }

  lemma StepKeepsRefreshes(w: World, step: Step)
    requires RefreshesCounted(w) && Enabled(w, step)
    ensures RefreshesCounted(Apply(w, step))
  {
    match step
    case Attempt(r, accounts, now, rpm, retries) =>
      AttemptKeepsRefreshing(w, r, accounts, now, rpm);
      SameRefreshing(w, Apply(w, step));
    case Rank(accounts, now) =>
      LookingKeepsOrder(w.lb, accounts, {}, now);
      SameRefreshing(w, Apply(w, step));
    case Refresh(id) => HeldIsCounted(w, id);
    case Refreshed(id) => UnheldIsCounted(w, id);
    case _ => SameRefreshing(w, Apply(w, step));
  }

  // ---------------------------------------------------------------- order within a request

  lemma StepKeepsOrderly(w: World, step: Step)
    requires AllOrderly(w) && RateKept(w) && Enabled(w, step)
    ensures AllOrderly(Apply(w, step))
  {
    match step
    case Attempt(r, accounts, now, rpm, retries) =>
      var q := w.requests[r];
      assert Orderly(q);
      TimePasses(w.lb, w.history, w.clock, now);
      ChosenWithin(w.lb, w.history, accounts, Skipped(q), now, rpm);
      if |q.tried| < MaxAttempts(retries) && Reserve(w.lb, accounts, Skipped(q), now, rpm).1.Chosen? {
        var id := AccountId(Reserve(w.lb, accounts, Skipped(q), now, rpm).1.account);
        TriesAnother(q, id);
      }
    case _ =>
  }

  lemma TriesAnother(q: Request, id: Id)
    requires Orderly(q) && |q.tried| <= MAX_RETRIES && id !in Skipped(q)
    ensures Orderly(Request(q.tried + [id], Holds(id), false))
  {
  }

  // ---------------------------------------------------------------- the rate limit

  lemma AttemptKeepsRate(w: World, r: nat, accounts: seq<Account>, now: int, rpm: int)
    requires RateKept(w) && r < |w.requests| && w.clock <= now
    ensures RateKept(Attempted(w, r, accounts, now, rpm))
  {
    var skip := Skipped(w.requests[r]);
    TimePasses(w.lb, w.history, w.clock, now);
    LookedAllRemembers(w.lb, w.history, now, accounts, skip, now);
    ChosenWithin(w.lb, w.history, accounts, skip, now, rpm);
    match Reserve(w.lb, accounts, skip, now, rpm).1
    case Nobody =>
    case Chosen(a) =>
      PickedRemembers(LookedAll(w.lb, accounts, skip, now), w.history, AccountId(a), now, rpm);
      LimitedSnoc(w.history, Pick(AccountId(a), now, rpm));
  }

  lemma StepKeepsRate(w: World, step: Step)
    requires RateKept(w) && Enabled(w, step)
    ensures RateKept(Apply(w, step))
  {
    match step
    case Attempt(r, accounts, now, rpm, retries) =>
      if |w.requests[r].tried| < MaxAttempts(retries) {
        AttemptKeepsRate(w, r, accounts, now, rpm);
      }
    case Rank(accounts, now) =>
      TimePasses(w.lb, w.history, w.clock, Later(w.clock, now));
      LookedAllRemembers(w.lb, w.history, Later(w.clock, now), accounts, {}, now);
    case Peek(id, now) =>
      TimePasses(w.lb, w.history, w.clock, Later(w.clock, now));
      SamePicksRemembers(w.lb, Warmed(w.lb, id, now), w.history, Later(w.clock, now));
      PruneRemembers(Warmed(w.lb, id, now), w.history, Later(w.clock, now), id, now);
    case _ => SamePicksRemembers(w.lb, Apply(w, step).lb, w.history, w.clock);
  }

  // ---------------------------------------------------------------- whole runs

  lemma StartIsSafe()
    ensures Safe(START)
  {
  }

  /** Through every interleaving: in-flight counters equal the reservations not yet ended,
      refresh counters the refreshes still running, every request tries pairwise distinct
      accounts, at most 33 of them, and the rate limit's memory is exact. */
  lemma {:induction false} AlwaysSafe(run: seq<Step>)
    requires Runs(START, run)
    ensures Safe(After(START, run))
    decreases |run|
  {
    StartIsSafe();
    if run != [] {
      var before, step := After(START, run[..|run| - 1]), run[|run| - 1];
      AlwaysSafe(run[..|run| - 1]);
      StepKeepsCounted(before, step);
      StepKeepsRefreshes(before, step);
      StepKeepsOrderly(before, step);
      StepKeepsRate(before, step);
    }
  }

  /** Once no request holds a reservation, every counter is back to zero and every pick of an
      account was ended exactly once. */
  lemma DrainedMeansIdle(run: seq<Step>, id: Id)
    requires Runs(START, run)
    requires forall r :: 0 <= r < |After(START, run).requests| ==> After(START, run).requests[r].holding.Free?
    ensures id != "" ==> Count(After(START, run).lb.inflight, id) == 0
    ensures |Times(After(START, run).history, id)| == After(START, run).ended[id]
  {
    AlwaysSafe(run);
    var w := After(START, run);
    assert CountedOf(w, id);
    NoHolders(w.requests, id);
  }

  lemma {:induction false} NoHolders(requests: seq<Request>, id: Id)
    requires forall r :: 0 <= r < |requests| ==> requests[r].holding.Free?
    ensures Holders(requests, id) == 0
    decreases |requests|
  {
    if requests != [] {
      NoHolders(requests[..|requests| - 1], id);
    }
  }

  ghost predicate LimitsUpTo(run: seq<Step>, cap: int) {
    forall k :: 0 <= k < |run| && run[k].Attempt? ==> ClampRpm(run[k].rpm) <= cap
  }

  ghost predicate PicksUpTo(history: seq<Pick>, cap: int) {
    forall k :: 0 <= k < |history| ==> ClampRpm(history[k].limit) <= cap
  }

  lemma StepKeepsPicksUpTo(w: World, step: Step, cap: int)
    requires Enabled(w, step) && PicksUpTo(w.history, cap)
    requires step.Attempt? ==> ClampRpm(step.rpm) <= cap
    ensures PicksUpTo(Apply(w, step).history, cap)
  {
  }

  lemma {:induction false} HistoryLimits(run: seq<Step>, cap: int)
    requires Runs(START, run) && LimitsUpTo(run, cap)
    ensures PicksUpTo(After(START, run).history, cap)
    decreases |run|
  {
    if run != [] {
      var front := run[..|run| - 1];
      assert LimitsUpTo(front, cap) by {
        assert forall j :: 0 <= j < |front| ==> front[j] == run[j];
      }
      HistoryLimits(front, cap);
      StepKeepsPicksUpTo(After(START, front), run[|run| - 1], cap);
    }
  }

  /** No account is picked more often than the limit in any minute (t - 60 s, t], wherever that
      minute lies and however requests, rankings and refreshes interleave. */
  lemma RateLimitHolds(run: seq<Step>, id: Id, t: int, rpm: int)
    requires Runs(START, run) && LimitsUpTo(run, ClampRpm(rpm))
    ensures CountIn(Times(After(START, run).history, id), t) <= ClampRpm(rpm)
  {
    AlwaysSafe(run);
    var w := After(START, run);
    assert RemembersOf(w.lb, w.history, w.clock, id);
    HistoryLimits(run, ClampRpm(rpm));
    EveryWindowIsLimited(w.history, id, t, ClampRpm(rpm), w.clock);
  }

  /** Ending takes back what reserving counted for every account that has a name, and for no
      other: an account without id and mail address stays counted for ever. */
  lemma EndUndoesReserve(s: State, id: Id, now: int)
    requires Count(s.inflight, id) >= 0
    ensures Count(End(Reserved(s, id, now), id).inflight, id) == Count(s.inflight, id) <==> id != ""
  {
    ReservedInflight(s, id, now);
  }
}

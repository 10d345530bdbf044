/** Who is left alone: accounts that rest, are being refreshed or cannot serve are not picked, and
    whoever finds nobody has one of these reasons for every account. */
module Availability {
  import opened Strings
  import opened Balancing = Balancer
  import opened RateLimit
  import opened Requests

  /** It has a key, its month is neither used up nor over, and it is not on hold. */
  predicate Serves(a: Account, now: int) {
    var unix := now / SECOND;
    && Trim(a.apiKey) != "" && !a.monthlyExhausted
    && (a.monthlyEndsAt <= 0 || unix < a.monthlyEndsAt)
    && a.holdUntil <= unix
  }

  // ---------------------------------------------------------------- what looking does to rests

  /** Rests that are not over stay, and none is added. */
  ghost predicate KeepsRest(s: State, t: State, now: int, id: Id) {
    && (id in t.cool ==> id in s.cool && t.cool[id] == s.cool[id])
    && (id in s.cool && now < s.cool[id] ==> id in t.cool)
  }

  lemma WarmedCool(s: State, other: Id, now: int, id: Id)
    ensures KeepsRest(s, Warmed(s, other, now), now, id)
  {
  }

  lemma PrunedCool(s: State, id: Id, now: int)
    ensures Prune(s, id, now).cool == s.cool
  {
  }

  lemma LookedCool(s: State, a: Account, skip: set<Id>, now: int, id: Id)
    ensures KeepsRest(s, Looked(s, a, skip, now), now, id)
  {
    WarmedCool(s, AccountId(a), now, id);
    PrunedCool(Warmed(s, AccountId(a), now), AccountId(a), now);
  }

  lemma {:induction false} LookedAllCool(s: State, accounts: seq<Account>, skip: set<Id>, now: int, id: Id)
    ensures KeepsRest(s, LookedAll(s, accounts, skip, now), now, id)
    decreases |accounts|
  {
    if accounts != [] {
      var front := accounts[..|accounts| - 1];
      LookedAllCool(s, front, skip, now, id);
      LookedCool(LookedAll(s, front, skip, now), accounts[|accounts| - 1], skip, now, id);
    }
  }

  lemma ReserveCool(s: State, accounts: seq<Account>, skip: set<Id>, now: int, rpm: int, id: Id)
    ensures KeepsRest(s, Reserve(s, accounts, skip, now, rpm).0, now, id)
  {
    LookedAllCool(s, accounts, skip, now, id);
    var choice := Reserve(s, accounts, skip, now, rpm).1;
    if choice.Chosen? {
      ReservedCool(LookedAll(s, accounts, skip, now), AccountId(choice.account), now);
    }
  }

  lemma ReservedCool(s: State, id: Id, now: int)
    ensures Reserved(s, id, now).cool == s.cool
  {
  }

  // ---------------------------------------------------------------- one attempt

  /** An attempt picks nobody, or one of the accounts, which serves, was not tried yet and neither
      rests nor is being refreshed. */
  ghost predicate PicksWell(w: World, v: World, r: nat, accounts: seq<Account>, now: int, rpm: int)
    requires r < |w.requests|
  {
    v.history == w.history
    || exists a :: a in accounts && v.history == w.history + [Pick(AccountId(a), now, rpm)] && Serves(a, now)
         && AccountId(a) !in w.requests[r].tried && AccountId(a) !in w.refreshes
         && !(AccountId(a) in w.lb.cool && now < w.lb.cool[AccountId(a)])
  }

  lemma ChosenIsFree(s: State, accounts: seq<Account>, skip: set<Id>, now: int, rpm: int)
    ensures var choice := Reserve(s, accounts, skip, now, rpm).1;
      choice.Chosen? ==>
        var a := choice.account;
        && a in accounts && Serves(a, now) && AccountId(a) !in skip
        && Count(s.refreshing, AccountId(a)) <= 0 && !(AccountId(a) in s.cool && now < s.cool[AccountId(a)])
  {
    ChoiceIsMinimal(s, accounts, skip, now, rpm);
  }

  lemma AttemptPicksWell(w: World, r: nat, accounts: seq<Account>, now: int, rpm: int, retries: int)
    requires Enabled(w, Attempt(r, accounts, now, rpm, retries)) && RefreshesCounted(w)
    ensures PicksWell(w, Apply(w, Attempt(r, accounts, now, rpm, retries)), r, accounts, now, rpm)
  {
    var skip := Skipped(w.requests[r]);
    ChosenIsFree(w.lb, accounts, skip, now, rpm);
    if |w.requests[r].tried| < MaxAttempts(retries) && Reserve(w.lb, accounts, skip, now, rpm).1.Chosen? {
      var a := Reserve(w.lb, accounts, skip, now, rpm).1.account;
      FreeOfRefreshes(w, AccountId(a));
      assert Attempted(w, r, accounts, now, rpm).history == w.history + [Pick(AccountId(a), now, rpm)];
    }
  }

  lemma FreeOfRefreshes(w: World, id: Id)
    requires RefreshesCounted(w) && Count(w.lb.refreshing, id) <= 0
    ensures id !in w.refreshes
  {
  }

  // ---------------------------------------------------------------- rests

  /** The rest of an account is over, or still stored. */
  ghost predicate Rested(w: World, id: Id, until: int) {
    w.clock >= until || (id in w.lb.cool && w.lb.cool[id] == until)
  }

  /** What came after the first `n` picks is no pick of the account before its rest was over. */
  ghost predicate NoneBefore(history: seq<Pick>, n: nat, id: Id, until: int) {
    n <= |history| && forall k :: n <= k < |history| && history[k].id == id ==> history[k].at >= until
  }

  predicate Cools(step: Step, id: Id) {
    step.Cool? && step.id == id
  }

  lemma AttemptKeepsRest(w: World, step: Step, id: Id, until: int, n: nat)
    requires step.Attempt? && Enabled(w, step) && Rested(w, id, until) && NoneBefore(w.history, n, id, until)
    ensures Rested(Apply(w, step), id, until) && NoneBefore(Apply(w, step).history, n, id, until)
  {
    var skip := Skipped(w.requests[step.r]);
    ReserveCool(w.lb, step.accounts, skip, step.now, step.rpm, id);
    ChosenIsFree(w.lb, step.accounts, skip, step.now, step.rpm);
  }

  lemma RankKeepsRest(w: World, accounts: seq<Account>, now: int, id: Id, until: int)
    requires Rested(w, id, until)
    ensures Rested(Apply(w, Rank(accounts, now)), id, until)
  {
    LookedAllCool(w.lb, accounts, {}, now, id);
  }

  lemma StepKeepsRest(w: World, step: Step, id: Id, until: int, n: nat)
    requires Enabled(w, step) && !Cools(step, id) && Rested(w, id, until) && NoneBefore(w.history, n, id, until)
    ensures Rested(Apply(w, step), id, until) && NoneBefore(Apply(w, step).history, n, id, until)
  {
    match step
    case Attempt(_, _, _, _, _) => AttemptKeepsRest(w, step, id, until, n);
    case Rank(accounts, now) => RankKeepsRest(w, accounts, now, id, until);
    case _ =>
  }

  lemma {:induction false} RunKeepsRest(w: World, run: seq<Step>, id: Id, until: int)
    requires Runs(w, run) && Rested(w, id, until) && forall i :: 0 <= i < |run| ==> !Cools(run[i], id)
    ensures Rested(After(w, run), id, until) && NoneBefore(After(w, run).history, |w.history|, id, until)
    decreases |run|
  {
    if run != [] {
      var front := run[..|run| - 1];
      RunKeepsRest(w, front, id, until);
      StepKeepsRest(After(w, front), run[|run| - 1], id, until, |w.history|);
    }
  }

  /** Once an account rests, it is picked again only when the rest is over, however requests,
      rankings, looks and refreshes interleave, unless another rest is set meanwhile. */
  lemma RestingIsLeftAlone(w: World, id: Id, now: int, d: int, run: seq<Step>, k: nat)
    requires id != "" && d > 0 && Runs(Apply(w, Cool(id, now, d)), run)
    requires forall i :: 0 <= i < |run| ==> !Cools(run[i], id)
    requires var history := After(Apply(w, Cool(id, now, d)), run).history;
      |w.history| <= k < |history| && history[k].id == id
    ensures After(Apply(w, Cool(id, now, d)), run).history[k].at >= now + d
  {
    RunKeepsRest(Apply(w, Cool(id, now, d)), run, id, now + d);
  }

  // ---------------------------------------------------------------- refreshes and fitness

  /** In every reachable world a pick is of an account that serves and that is not being refreshed. */
  lemma PickedServes(run: seq<Step>, r: nat, accounts: seq<Account>, now: int, rpm: int, retries: int)
    requires Runs(START, run) && Enabled(After(START, run), Attempt(r, accounts, now, rpm, retries))
    ensures var w := After(START, run);
      PicksWell(w, Apply(w, Attempt(r, accounts, now, rpm, retries)), r, accounts, now, rpm)
  {
    AlwaysSafe(run);
    AttemptPicksWell(After(START, run), r, accounts, now, rpm, retries);
  }

  // ---------------------------------------------------------------- why nobody is found

  /** A rest that some step set and that is not over. */
  ghost predicate Resting(run: seq<Step>, id: Id, now: int) {
    exists i :: 0 <= i < |run| && Cools(run[i], id) && run[i].d > 0 && now < run[i].now + run[i].d
  }

  /** Every rest stored was set by a step of the run. */
  ghost predicate SetBy(run: seq<Step>, id: Id, until: int) {
    exists i :: 0 <= i < |run| && Cools(run[i], id) && run[i].d > 0 && run[i].now + run[i].d == until
  }

  lemma SetBySnoc(run: seq<Step>, step: Step, id: Id, until: int)
    requires SetBy(run, id, until) || (Cools(step, id) && step.d > 0 && step.now + step.d == until)
    ensures SetBy(run + [step], id, until)
  {
    var all := run + [step];
    if SetBy(run, id, until) {
      var i :| 0 <= i < |run| && Cools(run[i], id) && run[i].d > 0 && run[i].now + run[i].d == until;
      assert Cools(all[i], id) && all[i].d > 0 && all[i].now + all[i].d == until;
    } else {
      assert all[|run|] == step;
    }
  }

  /** Only rests that were there before. */
  ghost predicate NoNewRest(s: State, t: State, id: Id) {
    id in t.cool ==> id in s.cool && t.cool[id] == s.cool[id]
  }

  lemma AttemptSetsNone(w: World, r: nat, accounts: seq<Account>, now: int, rpm: int, id: Id)
    requires r < |w.requests|
    ensures NoNewRest(w.lb, Attempted(w, r, accounts, now, rpm).lb, id)
  {
    ReserveCool(w.lb, accounts, Skipped(w.requests[r]), now, rpm, id);
  }

  lemma PeekSetsNone(s: State, other: Id, now: int, id: Id)
    ensures NoNewRest(s, Prune(Warmed(s, other, now), other, now), id)
  {
    WarmedCool(s, other, now, id);
    PrunedCool(Warmed(s, other, now), other, now);
  }

  lemma OthersSetNone(w: World, step: Step, id: Id)
    requires Enabled(w, step) && !step.Cool?
    ensures NoNewRest(w.lb, Apply(w, step).lb, id)
  {
    match step
    case Attempt(r, accounts, now, rpm, _) => AttemptSetsNone(w, r, accounts, now, rpm, id);
    case Rank(accounts, now) => LookedAllCool(w.lb, accounts, {}, now, id);
    case Peek(other, now) => PeekSetsNone(w.lb, other, now, id);
    case _ =>
  }

  /** A step invents no rest. */
  lemma StepSetsRest(w: World, step: Step, id: Id)
    requires Enabled(w, step) && id in Apply(w, step).lb.cool
    ensures var until := Apply(w, step).lb.cool[id];
      (id in w.lb.cool && w.lb.cool[id] == until) || (Cools(step, id) && step.d > 0 && step.now + step.d == until)
  {
    if !step.Cool? {
      OthersSetNone(w, step, id);
    }
  }

  ghost predicate AllSet(run: seq<Step>, cool: map<Id, int>) {
    forall id :: id in cool ==> SetBy(run, id, cool[id])
  }

  lemma StepKeepsAllSet(run: seq<Step>, w: World, step: Step)
    requires Enabled(w, step) && AllSet(run, w.lb.cool)
    ensures AllSet(run + [step], Apply(w, step).lb.cool)
  {
    var cool := Apply(w, step).lb.cool;
    forall id | id in cool ensures SetBy(run + [step], id, cool[id]) {
      StepSetsRest(w, step, id);
      SetBySnoc(run, step, id, cool[id]);
    }
  }

  lemma {:induction false} RestsAreSet(run: seq<Step>)
    requires Runs(START, run)
    ensures AllSet(run, After(START, run).lb.cool)
    decreases |run|
  {
    if run != [] {
      var front, step := run[..|run| - 1], run[|run| - 1];
      RestsAreSet(front);
      StepKeepsAllSet(front, After(START, front), step);
      assert front + [step] == run;
    }
  }

  lemma {:induction false} YoungCounts(xs: seq<int>, now: int)
    requires forall i :: 0 <= i < |xs| ==> xs[i] <= now
    ensures |Young(xs, now)| == CountIn(xs, now)
    decreases |xs|
  {
    if xs != [] {
      YoungCounts(xs[..|xs| - 1], now);
    }
  }

  /** Why an account with a name cannot be taken. */
  ghost predicate Excused(run: seq<Step>, w: World, r: nat, a: Account, now: int, rpm: int)
    requires r < |w.requests|
  {
    var id := AccountId(a);
    || id in w.requests[r].tried
    || Resting(run, id, now)
    || id in w.refreshes
    || !Serves(a, now)
    || CountIn(Times(w.history, id), now) >= ClampRpm(rpm)
  }

  lemma NotEligible(s: State, a: Account, skip: set<Id>, now: int, rpm: int)
    requires !Eligible(s, a, skip, now, rpm)
    ensures var id := AccountId(a);
      || id in skip || (id in s.cool && now < s.cool[id]) || Count(s.refreshing, id) > 0 || !Serves(a, now)
      || |DropOld(Picks(s, id), now)| >= ClampRpm(rpm)
  {
  }

  /** An attempt that may still try and finds nobody has a reason for every account: it was tried,
      it rests, it is being refreshed, it does not serve, or its minute is full. */
  lemma NobodyIsExplained(run: seq<Step>, r: nat, accounts: seq<Account>, now: int, rpm: int, retries: int, a: Account)
    requires Runs(START, run) && Enabled(After(START, run), Attempt(r, accounts, now, rpm, retries))
    requires |After(START, run).requests[r].tried| < MaxAttempts(retries) && a in accounts && AccountId(a) != ""
    requires Apply(After(START, run), Attempt(r, accounts, now, rpm, retries)).history == After(START, run).history
    ensures Excused(run, After(START, run), r, a, now, rpm)
  {
    var w, id := After(START, run), AccountId(a);
    var skip := Skipped(w.requests[r]);
    AlwaysSafe(run);
    ChoiceIsMinimal(w.lb, accounts, skip, now, rpm);
    PickIsRecorded(w, r, accounts, now, rpm);
    NotEligible(w.lb, a, skip, now, rpm);
    RestsAreSet(run);
    FullMinute(w, id, now);
  }

  lemma PickIsRecorded(w: World, r: nat, accounts: seq<Account>, now: int, rpm: int)
    requires r < |w.requests|
    ensures |Attempted(w, r, accounts, now, rpm).history|
      == |w.history| + if Reserve(w.lb, accounts, Skipped(w.requests[r]), now, rpm).1.Chosen? then 1 else 0
  {
  }

  lemma FullMinute(w: World, id: Id, now: int)
    requires RateKept(w) && w.clock <= now
    ensures |DropOld(Picks(w.lb, id), now)| == CountIn(Times(w.history, id), now)
  {
    assert RemembersOf(w.lb, w.history, w.clock, id);
    PrunedIsWindow(w.lb, w.history, w.clock, id, now);
    YoungCounts(Times(w.history, id), now);
  }
}

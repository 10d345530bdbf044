/** The sliding-window limit against the full history of picks: what the balancer remembers
    of an account is the young end of everything that ever happened to it. */
module RateLimit {
  import opened Balancing = Balancer

  datatype Pick = Pick(id: Id, at: int, limit: int)

  /** When an account was picked, in order. */
  function Times(history: seq<Pick>, id: Id): seq<int>
    decreases |history|
  {
    if history == [] then []
    else
      var front, last := Times(history[..|history| - 1], id), history[|history| - 1];
      if last.id == id then front + [last.at] else front
  }

  /** Exactly the moments in the window that ends now. */
  function Young(xs: seq<int>, now: int): seq<int>
    decreases |xs|
  {
    if xs == [] then []
    else
      var front, last := Young(xs[..|xs| - 1], now), xs[|xs| - 1];
      if last > now - WINDOW then front + [last] else front
  }

  /** How many moments fall in the window (t - 60 s, t]. */
  function CountIn(xs: seq<int>, t: int): nat
    decreases |xs|
  {
    if xs == [] then 0
    else
      var last := xs[|xs| - 1];
      CountIn(xs[..|xs| - 1], t) + if t - 60_000_000_000 < last <= t then 1 else 0
  }

  ghost predicate Ascending(xs: seq<int>, until: int) {
    && (forall i, j :: 0 <= i <= j < |xs| ==> xs[i] <= xs[j])
    && (forall i :: 0 <= i < |xs| ==> xs[i] <= until)
  }

  // ---------------------------------------------------------------- the lazy prune is a filter

  lemma {:induction false} YoungAll(xs: seq<int>, now: int)
    requires forall i :: 0 <= i < |xs| ==> xs[i] > now - WINDOW
    ensures Young(xs, now) == xs
    decreases |xs|
  {
    if xs != [] {
      YoungAll(xs[..|xs| - 1], now);
      assert xs[..|xs| - 1] + [xs[|xs| - 1]] == xs;
    }
  }

  lemma {:induction false} YoungTail(xs: seq<int>, now: int)
    requires xs != [] && xs[0] <= now - WINDOW
    ensures Young(xs[1..], now) == Young(xs, now)
    decreases |xs|
  {
    if |xs| > 1 {
      YoungTail(xs[..|xs| - 1], now);
      assert xs[1..][..|xs| - 2] == xs[..|xs| - 1][1..];
    }
  }

  /** On an ascending list, dropping from the front removes exactly what has left the window. */
  lemma {:induction false} PruneIsFilter(xs: seq<int>, now: int, until: int)
    requires Ascending(xs, until)
    ensures DropOld(xs, now) == Young(xs, now)
    ensures Ascending(DropOld(xs, now), until)
    decreases |xs|
  {
    if xs != [] && xs[0] <= now - WINDOW {
      YoungTail(xs, now);
      PruneIsFilter(xs[1..], now, until);
    } else {
      YoungAll(xs, now);
    }
  }

  lemma {:induction false} YoungNarrows(xs: seq<int>, earlier: int, now: int)
    requires earlier <= now
    ensures Young(Young(xs, earlier), now) == Young(xs, now)
    decreases |xs|
  {
    if xs != [] {
      var front, last := xs[..|xs| - 1], xs[|xs| - 1];
      YoungNarrows(front, earlier, now);
      if last > earlier - WINDOW {
        assert (Young(front, earlier) + [last])[..|Young(front, earlier)|] == Young(front, earlier);
      }
    }
  }

  lemma YoungSnoc(xs: seq<int>, now: int)
    ensures Young(xs + [now], now) == Young(xs, now) + [now]
  {
    assert (xs + [now])[..|xs|] == xs;
  }

  lemma AscendingFront(xs: seq<int>, last: int, until: int)
    requires Ascending(xs + [last], until)
    ensures Ascending(xs, until) && Ascending(xs + [last], last) && last <= until
  {
    var ys := xs + [last];
    assert ys[|ys| - 1] == last;
    assert forall i :: 0 <= i < |xs| ==> xs[i] == ys[i];
  }

  lemma TimesSnoc(history: seq<Pick>, p: Pick, id: Id)
    ensures Times(history + [p], id) == Times(history, id) + if p.id == id then [p.at] else []
  {
  }

  // ---------------------------------------------------------------- what is remembered

  ghost predicate SameWindow(xs: seq<int>, ys: seq<int>, clock: int) {
    Ascending(xs, clock) && Ascending(ys, clock) && Young(xs, clock) == Young(ys, clock)
  }

  lemma SameWindowSnoc(xs: seq<int>, ys: seq<int>, now: int)
    requires SameWindow(xs, ys, now)
    ensures SameWindow(xs + [now], ys + [now], now)
  {
    YoungSnoc(xs, now);
    YoungSnoc(ys, now);
    AscendingSnoc(xs, now);
    AscendingSnoc(ys, now);
  }

  lemma AscendingSnoc(xs: seq<int>, now: int)
    requires Ascending(xs, now)
    ensures Ascending(xs + [now], now)
  {
  }

  /** The balancer remembers, of one account, everything still in the window. */
  ghost predicate RemembersOf(s: State, history: seq<Pick>, clock: int, id: Id) {
    SameWindow(Picks(s, id), Times(history, id), clock)
  }

  ghost predicate Remembers(s: State, history: seq<Pick>, clock: int) {
    forall id :: RemembersOf(s, history, clock, id)
  }

  /** The pruned list is the in-window part of the whole history, now and at any later moment. */
  lemma PrunedIsWindow(s: State, history: seq<Pick>, clock: int, id: Id, now: int)
    requires RemembersOf(s, history, clock, id) && clock <= now
    ensures DropOld(Picks(s, id), now) == Young(Times(history, id), now)
  {
    PruneIsFilter(Picks(s, id), now, clock);
    YoungNarrows(Picks(s, id), clock, now);
    YoungNarrows(Times(history, id), clock, now);
  }

  lemma TimePasses(s: State, history: seq<Pick>, clock: int, now: int)
    requires Remembers(s, history, clock) && clock <= now
    ensures Remembers(s, history, now)
  {
    forall id ensures RemembersOf(s, history, now, id) {
      assert RemembersOf(s, history, clock, id);
      YoungNarrows(Picks(s, id), clock, now);
      YoungNarrows(Times(history, id), clock, now);
    }
  }

  /** A look with an old or current clock forgets nothing that still matters. */
  lemma PruneRemembers(s: State, history: seq<Pick>, clock: int, id: Id, now: int)
    requires Remembers(s, history, clock) && now <= clock
    ensures Remembers(Prune(s, id, now), history, clock)
  {
    var t := Prune(s, id, now);
    forall other ensures RemembersOf(t, history, clock, other) {
      assert RemembersOf(s, history, clock, other);
      if other == id {
        assert Picks(t, id) == DropOld(Picks(s, id), now);
        PruneIsFilter(Picks(s, id), now, clock);
        YoungNarrows(Picks(s, id), now, clock);
      } else {
        assert Picks(t, other) == Picks(s, other);
      }
    }
  }

  lemma SamePicksRemembers(s: State, t: State, history: seq<Pick>, clock: int)
    requires Remembers(s, history, clock) && t.picks == s.picks
    ensures Remembers(t, history, clock)
  {
    forall id ensures RemembersOf(t, history, clock, id) {
      assert RemembersOf(s, history, clock, id) && Picks(t, id) == Picks(s, id);
    }
  }

  lemma LookedRemembers(s: State, history: seq<Pick>, clock: int, a: Account, skip: set<Id>, now: int)
    requires Remembers(s, history, clock) && now <= clock
    ensures Remembers(Looked(s, a, skip, now), history, clock)
  {
    var w := Warmed(s, AccountId(a), now);
    SamePicksRemembers(s, w, history, clock);
    PruneRemembers(w, history, clock, AccountId(a), now);
  }

  lemma {:induction false} LookedAllRemembers(
    s: State, history: seq<Pick>, clock: int, accounts: seq<Account>, skip: set<Id>, now: int)
    requires Remembers(s, history, clock) && now <= clock
    ensures Remembers(LookedAll(s, accounts, skip, now), history, clock)
    decreases |accounts|
  {
    if accounts != [] {
      var front := accounts[..|accounts| - 1];
      LookedAllRemembers(s, history, clock, front, skip, now);
      LookedRemembers(LookedAll(s, front, skip, now), history, clock, accounts[|accounts| - 1], skip, now);
    }
  }

  lemma AppendedRemembers(s: State, history: seq<Pick>, id: Id, now: int, limit: int)
    requires Remembers(s, history, now)
    ensures Remembers(s.(picks := s.picks[id := Picks(s, id) + [now]]), history + [Pick(id, now, limit)], now)
  {
    var t := s.(picks := s.picks[id := Picks(s, id) + [now]]);
    var p := Pick(id, now, limit);
    forall other ensures RemembersOf(t, history + [p], now, other) {
      assert RemembersOf(s, history, now, other);
      AppendedRemembersOf(s, t, history, p, other);
    }
  }

  lemma AppendedRemembersOf(s: State, t: State, history: seq<Pick>, p: Pick, id: Id)
    requires RemembersOf(s, history, p.at, id)
    requires Picks(t, id) == if id == p.id then Picks(s, id) + [p.at] else Picks(s, id)
    ensures RemembersOf(t, history + [p], p.at, id)
  {
    TimesSnoc(history, p, id);
    if id == p.id {
      SameWindowSnoc(Picks(s, id), Times(history, id), p.at);
    } else {
      assert Times(history, id) + [] == Times(history, id);
    }
  }

  lemma RecordRemembers(s: State, history: seq<Pick>, id: Id, now: int, limit: int)
    requires Remembers(s, history, now)
    ensures Remembers(Record(s, id, now), history + [Pick(id, now, limit)], now)
  {
    PruneRemembers(s, history, now, id, now);
    AppendedRemembers(Prune(s, id, now), history, id, now, limit);
  }

  /** A pick taken now is remembered together with everything younger than the window. */
  lemma PickedRemembers(s: State, history: seq<Pick>, id: Id, now: int, limit: int)
    requires Remembers(s, history, now)
    ensures Remembers(Reserved(s, id, now), history + [Pick(id, now, limit)], now)
  {
    SamePicksRemembers(s, Stamped(s, id, now), history, now);
    RecordRemembers(Stamped(s, id, now), history, id, now, limit);
  }

  // ---------------------------------------------------------------- the limit

  /** Counting the pick itself, its own trailing window held no more picks than its limit. */
  ghost predicate Within(history: seq<Pick>, k: nat)
    requires k < |history|
  {
    |Young(Times(history[..k + 1], history[k].id), history[k].at)| <= ClampRpm(history[k].limit)
  }

  ghost predicate Limited(history: seq<Pick>) {
    forall k :: 0 <= k < |history| ==> Within(history, k)
  }

  lemma LimitedSnoc(history: seq<Pick>, p: Pick)
    requires Limited(history)
    requires |Young(Times(history, p.id), p.at)| < ClampRpm(p.limit)
    ensures Limited(history + [p])
  {
    var h := history + [p];
    forall k | 0 <= k < |h| ensures Within(h, k) {
      if k < |history| {
        EarlierWithin(history, p, k);
      } else {
        LastWithin(history, p);
      }
    }
  }

  lemma EarlierWithin(history: seq<Pick>, p: Pick, k: nat)
    requires k < |history| && Within(history, k)
    ensures Within(history + [p], k)
  {
    assert (history + [p])[..k + 1] == history[..k + 1];
  }

  lemma LastWithin(history: seq<Pick>, p: Pick)
    requires |Young(Times(history, p.id), p.at)| < ClampRpm(p.limit)
    ensures Within(history + [p], |history|)
  {
    assert (history + [p])[..|history| + 1] == history + [p];
    TimesSnoc(history, p, p.id);
    YoungSnoc(Times(history, p.id), p.at);
  }

  /** Looking for the chosen account made sure of its limit, against the full history. */
  lemma ChosenWithin(s: State, history: seq<Pick>, accounts: seq<Account>, skip: set<Id>, now: int, rpm: int)
    requires Remembers(s, history, now)
    ensures match Reserve(s, accounts, skip, now, rpm).1
      case Nobody => true
      case Chosen(a) => AccountId(a) !in skip && |Young(Times(history, AccountId(a)), now)| < ClampRpm(rpm)
  {
    ChoiceIsMinimal(s, accounts, skip, now, rpm);
    match Reserve(s, accounts, skip, now, rpm).1
    case Nobody =>
    case Chosen(a) =>
      assert RemembersOf(s, history, now, AccountId(a));
      PrunedIsWindow(s, history, now, AccountId(a), now);
  }

  lemma {:induction false} CountBelowYoung(xs: seq<int>, t: int, now: int)
    requires now <= t && Ascending(xs, now)
    ensures CountIn(xs, t) <= |Young(xs, now)|
    decreases |xs|
  {
    if xs != [] {
      CountBelowYoung(xs[..|xs| - 1], t, now);
    }
  }

  lemma LimitedFront(history: seq<Pick>)
    requires Limited(history) && history != []
    ensures Limited(history[..|history| - 1])
  {
    var front := history[..|history| - 1];
    forall k | 0 <= k < |front| ensures Within(front, k) {
      assert front[..k + 1] == history[..k + 1] && Within(history, k);
    }
  }

  /** In every window of a minute, placed anywhere, an account is picked at most as often as
      the largest limit its picks were made under. */
  lemma {:induction false} EveryWindowIsLimited(history: seq<Pick>, id: Id, t: int, cap: int, clock: int)
    requires Limited(history) && 1 <= cap && Ascending(Times(history, id), clock)
    requires forall k :: 0 <= k < |history| && history[k].id == id ==> ClampRpm(history[k].limit) <= cap
    ensures CountIn(Times(history, id), t) <= cap
    decreases |history|
  {
    if history != [] {
      var front, last := history[..|history| - 1], history[|history| - 1];
      if last.id == id {
        AscendingFront(Times(front, id), last.at, clock);
      }
      if last.id == id && last.at <= t {
        assert Within(history, |history| - 1) && history[..|history|] == history;
        CountBelowYoung(Times(history, id), t, last.at);
      } else {
        LimitedFront(history);
        EveryWindowIsLimited(front, id, t, cap, clock);
        if last.id == id {
          assert (Times(front, id) + [last.at])[..|Times(front, id)|] == Times(front, id);
        }
      }
    }
  }
}

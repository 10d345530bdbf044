/** Round robin: while accounts stay eligible and every request ends before the next one comes,
    the least recently used account is taken, so a full round takes every account once. */
module Fairness {
  import opened Balancing = Balancer

  /** One request at a given time: the state it leaves and whom it got. */
  type Serving = (State, int) -> (State, Id)

  /** The state before each request, when each reserves and ends before the next. */
  function At(serve: Serving, s: State, times: seq<int>, k: nat): State
    requires k <= |times|
  {
    if k == 0 then s else serve(At(serve, s, times, k - 1), times[k - 1]).0
  }

  /** Whom request `k` gets. */
  function PickOf(serve: Serving, s: State, times: seq<int>, k: nat): Id
    requires k < |times|
  {
    serve(At(serve, s, times, k), times[k]).1
  }

  function Once(s: State, accounts: seq<Account>, now: int, rpm: int): State {
    var (s', choice) := Reserve(s, accounts, {}, now, rpm);
    match choice
    case Nobody => s'
    case Chosen(a) => End(s', AccountId(a))
  }

  /** Whom a request gets; the empty name when nobody. */
  function Taken(s: State, accounts: seq<Account>, now: int, rpm: int): Id {
    match Reserve(s, accounts, {}, now, rpm).1
    case Nobody => ""
    case Chosen(a) => AccountId(a)
  }

  function Server(accounts: seq<Account>, rpm: int): Serving {
    (s, now) => (Once(s, accounts, now, rpm), Taken(s, accounts, now, rpm))
  }

  function Ids(accounts: seq<Account>): set<Id> {
    set a | a in accounts :: AccountId(a)
  }

  ghost predicate AllEligible(s: State, accounts: seq<Account>, now: int, rpm: int) {
    forall a :: a in accounts ==> Eligible(s, a, {}, now, rpm)
  }

  ghost predicate Idle(s: State, ids: set<Id>) {
    forall id :: id in ids ==> Count(s.inflight, id) == 0
  }

  ghost predicate Increasing(times: seq<int>) {
    forall i, j :: 0 <= i < j < |times| ==> times[i] < times[j]
  }

  // ---------------------------------------------------------------- one request

  lemma OnceTakesOldest(s: State, accounts: seq<Account>, now: int, rpm: int)
    requires accounts != [] && AllEligible(s, accounts, now, rpm) && Idle(s, Ids(accounts))
    ensures Taken(s, accounts, now, rpm) in Ids(accounts)
    ensures forall id :: id in Ids(accounts) ==> LastPick(s, Taken(s, accounts, now, rpm)) <= LastPick(s, id)
  {
    assert accounts[0] in accounts;
    ChoiceIsMinimal(s, accounts, {}, now, rpm);
    match Reserve(s, accounts, {}, now, rpm).1
    case Nobody =>
    case Chosen(best) =>
      forall id | id in Ids(accounts) ensures LastPick(s, AccountId(best)) <= LastPick(s, id) {
        var a :| a in accounts && AccountId(a) == id;
        assert NotAfter(s, best, a);
        assert AccountId(best) in Ids(accounts);
      }
  }

  lemma OnceMovesBack(s: State, accounts: seq<Account>, now: int, rpm: int, id: Id)
    requires "" !in Ids(accounts) && Taken(s, accounts, now, rpm) in Ids(accounts)
    ensures LastPick(Once(s, accounts, now, rpm), id) ==
            if id == Taken(s, accounts, now, rpm) then now else LastPick(s, id)
    ensures Count(s.inflight, id) == 0 ==> Count(Once(s, accounts, now, rpm).inflight, id) == 0
  {
    LookingKeepsOrder(s, accounts, {}, now);
    match Reserve(s, accounts, {}, now, rpm).1
    case Nobody =>
    case Chosen(a) => PickMovesBack(LookedAll(s, accounts, {}, now), AccountId(a), now, id);
  }

  lemma PickMovesBack(s: State, taken: Id, now: int, id: Id)
    requires taken != ""
    ensures LastPick(End(Reserved(s, taken, now), taken), id) == if id == taken then now else LastPick(s, id)
    ensures Count(s.inflight, id) == 0 ==> Count(End(Reserved(s, taken, now), taken).inflight, id) == 0
  {
    ReservedInflight(s, taken, now);
  }

  // ---------------------------------------------------------------- a whole rota

  /** What a sequence of requests looks like from outside: the oldest is taken and becomes the
      youngest. */
  ghost predicate Rota(ages: seq<map<Id, int>>, picked: seq<Id>, times: seq<int>, all: set<Id>) {
    && |picked| == |times| && |ages| == |times| + 1 && Increasing(times)
    && AllOf(ages, all) && AllMove(ages, picked, times)
    && (times != [] ==> Before(ages[0], times[0]))
  }

  ghost predicate AllOf(ages: seq<map<Id, int>>, all: set<Id>) {
    forall k :: 0 <= k < |ages| ==> ages[k].Keys == all
  }

  ghost predicate AllMove(ages: seq<map<Id, int>>, picked: seq<Id>, times: seq<int>)
    requires |picked| == |times| && |ages| == |times| + 1
  {
    forall k :: 0 <= k < |picked| ==> Moves(ages[k], ages[k + 1], picked[k], times[k])
  }

  ghost predicate Before(age: map<Id, int>, now: int) {
    forall id :: id in age ==> age[id] < now
  }

  ghost predicate Moves(age: map<Id, int>, next: map<Id, int>, taken: Id, now: int) {
    && taken in age && next == age[taken := now]
    && forall id :: id in age ==> age[taken] <= age[id]
  }

  lemma {:induction false} AgeBefore(ages: seq<map<Id, int>>, picked: seq<Id>, times: seq<int>, all: set<Id>, k: nat, id: Id)
    requires Rota(ages, picked, times, all) && k < |times| && id in all
    ensures ages[k][id] < times[k]
    decreases k
  {
    if k > 0 {
      AgeBefore(ages, picked, times, all, k - 1, id);
      assert Moves(ages[k - 1], ages[k], picked[k - 1], times[k - 1]);
    }
  }

  lemma {:induction false} PickedIsYoung(
    ages: seq<map<Id, int>>, picked: seq<Id>, times: seq<int>, all: set<Id>, i: nat, j: nat)
    requires Rota(ages, picked, times, all) && i < j <= |times|
    ensures picked[i] in all && ages[j][picked[i]] >= times[i]
    decreases j
  {
    assert Moves(ages[i], ages[i + 1], picked[i], times[i]);
    if i + 1 < j {
      PickedIsYoung(ages, picked, times, all, i, j - 1);
      assert Moves(ages[j - 1], ages[j], picked[j - 1], times[j - 1]);
    }
  }

  function Between(picked: seq<Id>, i: nat, j: nat): (ids: set<Id>)
    requires i <= j <= |picked|
    ensures |ids| <= j - i
    decreases j
  {
    if i == j then {} else Between(picked, i, j - 1) + {picked[j - 1]}
  }

  lemma {:induction false} UntouchedIsOld(
    ages: seq<map<Id, int>>, picked: seq<Id>, times: seq<int>, all: set<Id>, i: nat, j: nat, id: Id)
    requires Rota(ages, picked, times, all) && i <= j <= |picked| && id in all && id !in Between(picked, i, j)
    ensures ages[j][id] == ages[i][id]
    decreases j
  {
    if i < j {
      UntouchedIsOld(ages, picked, times, all, i, j - 1, id);
      assert Moves(ages[j - 1], ages[j], picked[j - 1], times[j - 1]);
    }
  }

  lemma SomeoneElse(all: set<Id>, few: set<Id>) returns (id: Id)
    requires |few| < |all|
    ensures id in all && id !in few
  {
    if forall x :: x in all ==> x in few {
      SmallerSet(all, few);
    }
    id :| id in all && id !in few;
  }

  lemma {:induction false} SmallerSet(a: set<Id>, b: set<Id>)
    requires a <= b
    ensures |a| <= |b|
  {
    if a != {} {
      var x :| x in a;
      SmallerSet(a - {x}, b - {x});
    }
  }

  /** Within any round as long as the number of accounts, nobody is taken twice. */
  lemma RotaIsFair(ages: seq<map<Id, int>>, picked: seq<Id>, times: seq<int>, all: set<Id>, i: nat, j: nat)
    requires Rota(ages, picked, times, all) && i < j < |picked| && j - i < |all|
    ensures picked[i] != picked[j]
  {
    var id := SomeoneElse(all, Between(picked, i, j));
    UntouchedIsOld(ages, picked, times, all, i, j, id);
    AgeBefore(ages, picked, times, all, i, id);
    PickedIsYoung(ages, picked, times, all, i, j);
    assert Moves(ages[j], ages[j + 1], picked[j], times[j]);
  }

  function Ages(s: State, all: set<Id>): map<Id, int> {
    map id | id in all :: LastPick(s, id)
  }

  lemma OnceMoves(s: State, accounts: seq<Account>, now: int, rpm: int)
    requires accounts != [] && "" !in Ids(accounts) && Idle(s, Ids(accounts)) && AllEligible(s, accounts, now, rpm)
    ensures Idle(Once(s, accounts, now, rpm), Ids(accounts))
    ensures Moves(Ages(s, Ids(accounts)), Ages(Once(s, accounts, now, rpm), Ids(accounts)),
                  Taken(s, accounts, now, rpm), now)
  {
    OnceTakesOldest(s, accounts, now, rpm);
    var next, taken := Once(s, accounts, now, rpm), Taken(s, accounts, now, rpm);
    forall id | id in Ids(accounts)
      ensures LastPick(next, id) == if id == taken then now else LastPick(s, id)
      ensures Count(next.inflight, id) == 0
    {
      OnceMovesBack(s, accounts, now, rpm, id);
    }
    AgesMove(s, next, Ids(accounts), taken, now);
  }

  lemma AgesMove(s: State, next: State, all: set<Id>, taken: Id, now: int)
    requires taken in all
    requires forall id :: id in all ==> LastPick(next, id) == if id == taken then now else LastPick(s, id)
    requires forall id :: id in all ==> LastPick(s, taken) <= LastPick(s, id)
    ensures Moves(Ages(s, all), Ages(next, all), taken, now)
  {
  }

  // ---------------------------------------------------------------- one request after another

  /** What matters of a state: whether the accounts are idle, whether they are all eligible at a
      time, and when each was last taken. */
  datatype Sight = Sight(idle: State -> bool, fit: (State, int) -> bool, ages: State -> map<Id, int>)

  ghost function SightOf(accounts: seq<Account>, rpm: int): Sight {
    Sight(
      s => Idle(s, Ids(accounts)),
      (s, now) => AllEligible(s, accounts, now, rpm),
      s => Ages(s, Ids(accounts)))
  }

  /** Requests at eligible and idle accounts leave all idle. */
  ghost predicate Settles(serve: Serving, sight: Sight) {
    forall s: State, now: int {:trigger serve(s, now)} ::
      sight.idle(s) && sight.fit(s, now) ==> sight.idle(serve(s, now).0)
  }

  /** They move the oldest to the back. */
  ghost predicate Rotates(serve: Serving, sight: Sight) {
    forall s: State, now: int {:trigger serve(s, now)} ::
      sight.idle(s) && sight.fit(s, now) ==>
        Moves(sight.ages(s), sight.ages(serve(s, now).0), serve(s, now).1, now)
  }

  lemma ServerRotates(accounts: seq<Account>, rpm: int)
    requires accounts != [] && "" !in Ids(accounts)
    ensures Settles(Server(accounts, rpm), SightOf(accounts, rpm))
    ensures Rotates(Server(accounts, rpm), SightOf(accounts, rpm))
  {
    forall s: State, now: int | Idle(s, Ids(accounts)) && AllEligible(s, accounts, now, rpm)
      ensures Idle(Once(s, accounts, now, rpm), Ids(accounts))
      ensures Moves(Ages(s, Ids(accounts)), Ages(Once(s, accounts, now, rpm), Ids(accounts)),
                    Taken(s, accounts, now, rpm), now)
    {
      OnceMoves(s, accounts, now, rpm);
    }
  }

  ghost predicate StaysFit(serve: Serving, sight: Sight, s: State, times: seq<int>) {
    forall k :: 0 <= k < |times| ==> sight.fit(At(serve, s, times, k), times[k])
  }

  lemma SettlesNow(serve: Serving, sight: Sight, s: State, now: int)
    requires Settles(serve, sight) && sight.idle(s) && sight.fit(s, now)
    ensures sight.idle(serve(s, now).0)
  {
  }

  lemma {:induction false} StaysIdle(serve: Serving, sight: Sight, s: State, times: seq<int>, k: nat)
    requires Settles(serve, sight) && StaysFit(serve, sight, s, times) && sight.idle(s) && k <= |times|
    ensures sight.idle(At(serve, s, times, k))
    decreases k
  {
    if k > 0 {
      var before := At(serve, s, times, k - 1);
      StaysIdle(serve, sight, s, times, k - 1);
      SettlesNow(serve, sight, before, times[k - 1]);
    }
  }

  ghost function AgeAt(serve: Serving, sight: Sight, s: State, times: seq<int>, k: nat): map<Id, int>
    requires k <= |times|
  {
    sight.ages(At(serve, s, times, k))
  }

  lemma TurnMoves(serve: Serving, sight: Sight, s: State, times: seq<int>, k: nat)
    requires Settles(serve, sight) && Rotates(serve, sight)
    requires StaysFit(serve, sight, s, times) && sight.idle(s) && k < |times|
    ensures Moves(AgeAt(serve, sight, s, times, k), AgeAt(serve, sight, s, times, k + 1), PickOf(serve, s, times, k), times[k])
  {
    StaysIdle(serve, sight, s, times, k);
    assert sight.fit(At(serve, s, times, k), times[k]);
    assert At(serve, s, times, k + 1) == serve(At(serve, s, times, k), times[k]).0;
  }

  lemma MovesKeepsKeys(age: map<Id, int>, next: map<Id, int>, taken: Id, now: int)
    requires Moves(age, next, taken, now)
    ensures next.Keys == age.Keys
  {
  }

  lemma {:induction false} SameKeys(ages: seq<map<Id, int>>, picked: seq<Id>, times: seq<int>, k: nat)
    requires |picked| == |times| && |ages| == |times| + 1 && k <= |times| && AllMove(ages, picked, times)
    ensures ages[k].Keys == ages[0].Keys
    decreases k
  {
    if k > 0 {
      SameKeys(ages, picked, times, k - 1);
      MovesKeepsKeys(ages[k - 1], ages[k], picked[k - 1], times[k - 1]);
    }
  }

  ghost function AgesAlong(serve: Serving, sight: Sight, s: State, times: seq<int>): (ages: seq<map<Id, int>>)
    ensures |ages| == |times| + 1 && forall k :: 0 <= k < |ages| ==> ages[k] == AgeAt(serve, sight, s, times, k)
  {
    seq(|times| + 1, k requires 0 <= k <= |times| => AgeAt(serve, sight, s, times, k))
  }

  function PicksAlong(serve: Serving, s: State, times: seq<int>): (picked: seq<Id>)
    ensures |picked| == |times| && forall k :: 0 <= k < |times| ==> picked[k] == PickOf(serve, s, times, k)
  {
    seq(|times|, k requires 0 <= k < |times| => PickOf(serve, s, times, k))
  }

  lemma TurnsMove(serve: Serving, sight: Sight, s: State, times: seq<int>)
    requires Settles(serve, sight) && Rotates(serve, sight) && StaysFit(serve, sight, s, times) && sight.idle(s)
    ensures AllMove(AgesAlong(serve, sight, s, times), PicksAlong(serve, s, times), times)
  {
    var ages, picked := AgesAlong(serve, sight, s, times), PicksAlong(serve, s, times);
    forall k | 0 <= k < |picked| ensures Moves(ages[k], ages[k + 1], picked[k], times[k]) {
      TurnMoves(serve, sight, s, times, k);
    }
  }

  lemma KeysStay(ages: seq<map<Id, int>>, picked: seq<Id>, times: seq<int>)
    requires |picked| == |times| && |ages| == |times| + 1 && AllMove(ages, picked, times)
    ensures AllOf(ages, ages[0].Keys)
  {
    forall k | 0 <= k < |ages| ensures ages[k].Keys == ages[0].Keys {
      SameKeys(ages, picked, times, k);
    }
  }

  lemma RotationIsFair(serve: Serving, sight: Sight, s: State, times: seq<int>, i: nat, j: nat)
    requires Settles(serve, sight) && Rotates(serve, sight) && StaysFit(serve, sight, s, times) && sight.idle(s)
    requires Increasing(times) && (times != [] ==> Before(sight.ages(s), times[0]))
    requires i < j < |times| && j - i < |sight.ages(s).Keys|
    ensures PickOf(serve, s, times, i) != PickOf(serve, s, times, j)
  {
    TurnsMove(serve, sight, s, times);
    var ages, picked := AgesAlong(serve, sight, s, times), PicksAlong(serve, s, times);
    KeysStay(ages, picked, times);
    assert ages[0] == sight.ages(s);
    RotaIsFair(ages, picked, times, sight.ages(s).Keys, i, j);
  }

  ghost predicate StayEligible(serve: Serving, s: State, accounts: seq<Account>, times: seq<int>, rpm: int) {
    forall k :: 0 <= k < |times| ==> AllEligible(At(serve, s, times, k), accounts, times[k], rpm)
  }

  /** With N accounts that stay eligible, strictly increasing times later than any earlier pick,
      and every request ended before the next, any N consecutive requests get N different
      accounts. */
  lemma RoundRobin(s: State, accounts: seq<Account>, times: seq<int>, rpm: int, i: nat, j: nat)
    requires accounts != [] && "" !in Ids(accounts) && Idle(s, Ids(accounts))
    requires Increasing(times) && StayEligible(Server(accounts, rpm), s, accounts, times, rpm)
    requires forall id :: id in Ids(accounts) && times != [] ==> LastPick(s, id) < times[0]
    requires i < j < |times| && j - i < |Ids(accounts)|
    ensures PickOf(Server(accounts, rpm), s, times, i) != PickOf(Server(accounts, rpm), s, times, j)
  {
    ServerRotates(accounts, rpm);
    assert Ages(s, Ids(accounts)).Keys == Ids(accounts);
    RotationIsFair(Server(accounts, rpm), SightOf(accounts, rpm), s, times, i, j);
  }
}

/** The load balancer: in-flight counters, least-recently-used ranking and a per-account
    sliding-window rate limit whose list of past picks is pruned lazily and from the front. */
module Balancer {
  import opened Strings
  import Seqs

  type Id = string

  const WINDOW := 60_000_000_000
  const SECOND := 1_000_000_000
  const DEFAULT_RPM := 5
  const MAX_RPM := 1000
  const DEFAULT_RETRIES := 3
  const MAX_RETRIES := 32

  /** The last-pick time of an account that was never picked. */
  const NEVER := -62_135_596_800 * SECOND

  datatype Account = Account(
    id: string, email: string, apiKey: string, monthlyExhausted: bool, monthlyEndsAt: int, holdUntil: int)

  function AccountId(a: Account): Id {
    if Trim(a.id) != "" then Trim(a.id) else a.email
  }

  predicate CanServe(a: Account, now: int) {
    var unix := now / SECOND;
    Trim(a.apiKey) != "" && !a.monthlyExhausted && !(a.monthlyEndsAt > 0 && unix >= a.monthlyEndsAt) && a.holdUntil <= unix
  }

  function ClampRpm(n: int): (r: int)
    ensures 1 <= r <= 1000
    ensures 1 <= n <= 1000 ==> r == n
    ensures n < 1 ==> r == 5
    ensures n > 1000 ==> r == 1000
  {
    if n < 1 then DEFAULT_RPM else if n > MAX_RPM then MAX_RPM else n
  }

  function MaxAttempts(retries: int): (n: nat)
    ensures 1 <= n <= 33
    ensures 0 <= retries <= 32 ==> n == retries + 1
    ensures retries < 0 ==> n == 4
    ensures retries > 32 ==> n == 33
  {
    (if retries < 0 then DEFAULT_RETRIES else if retries > MAX_RETRIES then MAX_RETRIES else retries) + 1
  }

  // ---------------------------------------------------------------- state

  datatype State = State(
    cool: map<Id, int>,
    inflight: map<Id, int>,
    lastPick: map<Id, int>,
    refreshing: map<Id, int>,
    picks: map<Id, seq<int>>)

  const EMPTY := State(map[], map[], map[], map[], map[])

  function Count(m: map<Id, int>, id: Id): int {
    if id in m then m[id] else 0
  }

  function LastPick(s: State, id: Id): int {
    if id in s.lastPick then s.lastPick[id] else NEVER
  }

  function Picks(s: State, id: Id): seq<int> {
    if id in s.picks then s.picks[id] else []
  }

  /** Drops picks from the front until one is younger than the window. */
  function DropOld(xs: seq<int>, now: int): seq<int> {
    if xs != [] && xs[0] <= now - WINDOW then DropOld(xs[1..], now) else xs
  }

  function Prune(s: State, id: Id, now: int): State {
    var kept := DropOld(Picks(s, id), now);
    if kept == Picks(s, id) then s
    else if kept == [] then s.(picks := s.picks - {id})
    else s.(picks := s.picks[id := kept])
  }

  function Record(s: State, id: Id, now: int): State {
    var s' := Prune(s, id, now);
    s'.(picks := s'.picks[id := Picks(s', id) + [now]])
  }

  function Warmed(s: State, id: Id, now: int): State {
    if id in s.cool && now >= s.cool[id] then s.(cool := s.cool - {id}) else s
  }

  // ---------------------------------------------------------------- ranking

  predicate Eligible(s: State, a: Account, skip: set<Id>, now: int, rpm: int) {
    var id := AccountId(a);
    && id !in skip
    && !(id in s.cool && now < s.cool[id])
    && Count(s.refreshing, id) <= 0
    && CanServe(a, now)
    && |DropOld(Picks(s, id), now)| < ClampRpm(rpm)
  }

  /** The side effects of looking at one account: an expired cool-down is forgotten and, when
      the checks get that far, old picks are pruned. */
  function Looked(s: State, a: Account, skip: set<Id>, now: int): State {
    var id := AccountId(a);
    if id in skip then s
    else if id in s.cool && now < s.cool[id] then s
    else
      var s' := Warmed(s, id, now);
      if Count(s.refreshing, id) > 0 || !CanServe(a, now) then s' else Prune(s', id, now)
  }

  function LookedAll(s: State, accounts: seq<Account>, skip: set<Id>, now: int): State
    decreases |accounts|
  {
    if accounts == [] then s
    else Looked(LookedAll(s, accounts[..|accounts| - 1], skip, now), accounts[|accounts| - 1], skip, now)
  }

  function EligibleOf(s: State, accounts: seq<Account>, skip: set<Id>, now: int, rpm: int): seq<Account>
    decreases |accounts|
  {
    if accounts == [] then []
    else
      var last := accounts[|accounts| - 1];
      EligibleOf(s, accounts[..|accounts| - 1], skip, now, rpm) + if Eligible(s, last, skip, now, rpm) then [last] else []
  }

  /** Fewer requests in flight first, then the longest unused, then by mail address. */
  predicate Less(s: State, a: Account, b: Account) {
    var x, y := AccountId(a), AccountId(b);
    if Count(s.inflight, x) != Count(s.inflight, y) then Count(s.inflight, x) < Count(s.inflight, y)
    else if LastPick(s, x) != LastPick(s, y) then LastPick(s, x) < LastPick(s, y)
    else Strings.Before(a.email, b.email)
  }

  function Insert(s: State, sorted: seq<Account>, a: Account): seq<Account>
    decreases |sorted|
  {
    if sorted == [] || !Less(s, a, sorted[|sorted| - 1]) then sorted + [a]
    else Insert(s, sorted[..|sorted| - 1], a) + [sorted[|sorted| - 1]]
  }

  /** The stable sort by `Less`. */
  function Sorted(s: State, accounts: seq<Account>): seq<Account>
    decreases |accounts|
  {
    if accounts == [] then [] else Insert(s, Sorted(s, accounts[..|accounts| - 1]), accounts[|accounts| - 1])
  }

  function Ranked(s: State, accounts: seq<Account>, skip: set<Id>, now: int, rpm: int): seq<Account> {
    Sorted(s, EligibleOf(s, accounts, skip, now, rpm))
  }

  // ---------------------------------------------------------------- operations

  function Stamped(s: State, id: Id, now: int): State {
    s.(inflight := s.inflight[id := Count(s.inflight, id) + 1], lastPick := s.lastPick[id := now])
  }

  function Reserved(s: State, id: Id, now: int): State {
    Record(Stamped(s, id, now), id, now)
  }

  datatype Choice = Nobody | Chosen(account: Account)

  /** Ranks and takes the first. */
  function Reserve(s: State, accounts: seq<Account>, skip: set<Id>, now: int, rpm: int): (State, Choice) {
    var s' := LookedAll(s, accounts, skip, now);
    var ranked := Ranked(s, accounts, skip, now, rpm);
    if ranked == [] then (s', Nobody) else (Reserved(s', AccountId(ranked[0]), now), Chosen(ranked[0]))
  }

  function End(s: State, id: Id): State {
    if id != "" && Count(s.inflight, id) > 0 then s.(inflight := s.inflight[id := Count(s.inflight, id) - 1]) else s
  }

  function Hold(s: State, id: Id): State {
    if id == "" then s else s.(refreshing := s.refreshing[id := Count(s.refreshing, id) + 1])
  }

  function Unhold(s: State, id: Id): State {
    var n := Count(s.refreshing, id);
    if id == "" || n <= 0 then s
    else if n == 1 then s.(refreshing := s.refreshing - {id})
    else s.(refreshing := s.refreshing[id := n - 1])
  }

  function Cooled(s: State, id: Id, now: int, d: int): State {
    if id == "" || d <= 0 then s else s.(cool := s.cool[id := now + d])
  }

  // ---------------------------------------------------------------- the balancer object

  /** A reservation taken, and a call that ends one. */
  datatype Event = Took(id: Id) | Gave(id: Id)

  class Balancer {
    var cool: map<Id, int>
    var inflight: map<Id, int>
    var lastPick: map<Id, int>
    var refreshing: map<Id, int>
    var picks: map<Id, seq<int>>
    /** Every reservation taken and every call that ends one, in order. */
    ghost var log: seq<Event>

    constructor ()
      ensures View() == EMPTY && log == []
    {
      cool, inflight, lastPick, refreshing, picks, log := map[], map[], map[], map[], map[], [];
    }

    function View(): State
      reads this
    {
      State(cool, inflight, lastPick, refreshing, picks)
    }

    method PrunePicks(id: Id, now: int)
      modifies `picks
      ensures View() == Prune(old(View()), id, now)
    {
      var xs := if id in picks then picks[id] else [];
      var i := 0;
      while i < |xs| && xs[i] <= now - WINDOW
        invariant 0 <= i <= |xs| && DropOld(xs[i..], now) == DropOld(xs, now)
      {
        assert xs[i..][1..] == xs[i + 1..];
        i := i + 1;
      }
      assert DropOld(xs, now) == xs[i..];
      if i == 0 {
        return;
      }
      if i >= |xs| {
        picks := picks - {id};
      } else {
        picks := picks[id := xs[i..]];
      }
    }

    method Cooling(id: Id, now: int) returns (yes: bool)
      modifies `cool
      ensures yes == (id in old(cool) && now < old(cool)[id])
      ensures View() == if yes then old(View()) else Warmed(old(View()), id, now)
    {
      if id !in cool {
        return false;
      }
      if now < cool[id] {
        return true;
      }
      cool := cool - {id};
      return false;
    }

    method RpmFull(id: Id, now: int, rpm: int) returns (full: bool)
      modifies `picks
      ensures View() == Prune(old(View()), id, now)
      ensures full == (|DropOld(Picks(old(View()), id), now)| >= ClampRpm(rpm))
    {
      PrunePicks(id, now);
      full := |Picks(View(), id)| >= ClampRpm(rpm);
    }

    /** The checks on one account, in order and with their side effects. */
    method Consider(a: Account, skip: set<Id>, now: int, rpm: int) returns (ok: bool)
      modifies `cool, `picks
      ensures ok == Eligible(old(View()), a, skip, now, rpm)
      ensures View() == Looked(old(View()), a, skip, now)
    {
      var id := AccountId(a);
      if id in skip {
        return false;
      }
      var cooling := Cooling(id, now);
      if cooling {
        return false;
      }
      if Count(refreshing, id) > 0 || !CanServe(a, now) {
        return false;
      }
      var full := RpmFull(id, now, rpm);
      ok := !full;
    }

    method Rank(accounts: seq<Account>, skip: set<Id>, now: int, rpm: int) returns (out: seq<Account>)
      modifies `cool, `picks
      ensures out == Ranked(old(View()), accounts, skip, now, rpm)
      ensures View() == LookedAll(old(View()), accounts, skip, now)
    {
      out := [];
      for i := 0 to |accounts|
        invariant View() == LookedAll(old(View()), accounts[..i], skip, now)
        invariant out == EligibleOf(old(View()), accounts[..i], skip, now, rpm)
      {
        assert accounts[..i + 1][..i] == accounts[..i];
        LookingKeepsEligibility(old(View()), accounts[..i], accounts[i], skip, now, rpm);
        var ok := Consider(accounts[i], skip, now, rpm);
        if ok {
          out := out + [accounts[i]];
        } else {
          assert out + [] == out;
        }
      }
      assert accounts[..|accounts|] == accounts;
      LookingKeepsOrder(old(View()), accounts, skip, now);
      SortedFrame(old(View()), View(), out);
      out := Sorted(View(), out);
    }

    method ReserveWithRpm(accounts: seq<Account>, skip: set<Id>, now: int, rpm: int) returns (choice: Choice)
      modifies this
      ensures (View(), choice) == Reserve(old(View()), accounts, skip, now, rpm)
      ensures log == old(log) + if choice.Chosen? then [Took(AccountId(choice.account))] else []
    {
      var ranked := Rank(accounts, skip, now, rpm);
      if |ranked| == 0 {
        return Nobody;
      }
      Take(AccountId(ranked[0]), now);
      choice := Chosen(ranked[0]);
    }

    method Take(id: Id, now: int)
      modifies this
      ensures View() == Reserved(old(View()), id, now)
      ensures log == old(log) + [Took(id)]
    {
      inflight := inflight[id := Count(inflight, id) + 1];
      lastPick := lastPick[id := now];
      PrunePicks(id, now);
      picks := picks[id := Picks(View(), id) + [now]];
      log := log + [Took(id)];
    }

    method EndRequest(id: Id)
      modifies `inflight, `log
      ensures View() == End(old(View()), id)
      ensures log == old(log) + [Gave(id)]
    {
      log := log + [Gave(id)];
      if id == "" {
        return;
      }
      if Count(inflight, id) > 0 {
        inflight := inflight[id := inflight[id] - 1];
      }
    }

    method HoldAccount(id: Id)
      modifies `refreshing
      ensures View() == Hold(old(View()), id)
    {
      if id != "" {
        refreshing := refreshing[id := Count(refreshing, id) + 1];
      }
    }

    method UnholdAccount(id: Id)
      modifies `refreshing
      ensures View() == Unhold(old(View()), id)
    {
      if id == "" {
        return;
      }
      if Count(refreshing, id) > 0 {
        refreshing := refreshing[id := refreshing[id] - 1];
        if refreshing[id] == 0 {
          refreshing := refreshing - {id};
          assert refreshing == old(refreshing) - {id};
        }
      }
    }

    method Cooldown(id: Id, now: int, d: int)
      modifies `cool
      ensures View() == Cooled(old(View()), id, now, d)
    {
      if id == "" || d <= 0 {
        return;
      }
      cool := cool[id := now + d];
    }
  }

  // ---------------------------------------------------------------- looking has no influence

  lemma {:induction false} DropOldTwice(xs: seq<int>, now: int)
    ensures DropOld(DropOld(xs, now), now) == DropOld(xs, now)
    decreases |xs|
  {
    if xs != [] && xs[0] <= now - WINDOW {
      DropOldTwice(xs[1..], now);
    }
  }

  /** What looking may change: expired cool-downs and old picks, nothing the checks can see. */
  ghost predicate SameToday(s: State, t: State, now: int) {
    && t.inflight == s.inflight && t.lastPick == s.lastPick && t.refreshing == s.refreshing
    && (forall id :: (id in t.cool && now < t.cool[id]) == (id in s.cool && now < s.cool[id]))
    && (forall id :: DropOld(Picks(t, id), now) == DropOld(Picks(s, id), now))
  }

  lemma PruneSameToday(s: State, id: Id, now: int)
    ensures SameToday(s, Prune(s, id, now), now)
  {
    DropOldTwice(Picks(s, id), now);
    var t := Prune(s, id, now);
    assert Picks(t, id) == DropOld(Picks(s, id), now);
    assert forall other :: other != id ==> Picks(t, other) == Picks(s, other);
  }

  lemma WarmedSameToday(s: State, id: Id, now: int)
    ensures SameToday(s, Warmed(s, id, now), now)
  {
  }

  lemma LookedSameToday(s: State, a: Account, skip: set<Id>, now: int)
    ensures SameToday(s, Looked(s, a, skip, now), now)
  {
    WarmedSameToday(s, AccountId(a), now);
    PruneSameToday(Warmed(s, AccountId(a), now), AccountId(a), now);
  }

  lemma {:induction false} LookedAllSameToday(s: State, accounts: seq<Account>, skip: set<Id>, now: int)
    ensures SameToday(s, LookedAll(s, accounts, skip, now), now)
    decreases |accounts|
  {
    if accounts != [] {
      var before := accounts[..|accounts| - 1];
      LookedAllSameToday(s, before, skip, now);
      LookedSameToday(LookedAll(s, before, skip, now), accounts[|accounts| - 1], skip, now);
    }
  }

  lemma LookingKeepsEligibility(s: State, accounts: seq<Account>, a: Account, skip: set<Id>, now: int, rpm: int)
    ensures Eligible(LookedAll(s, accounts, skip, now), a, skip, now, rpm) == Eligible(s, a, skip, now, rpm)
  {
    LookedAllSameToday(s, accounts, skip, now);
  }

  lemma LookingKeepsOrder(s: State, accounts: seq<Account>, skip: set<Id>, now: int)
    ensures var t := LookedAll(s, accounts, skip, now);
      t.inflight == s.inflight && t.lastPick == s.lastPick && t.refreshing == s.refreshing
  {
    LookedAllSameToday(s, accounts, skip, now);
  }

  lemma {:induction false} InsertFrame(s: State, t: State, sorted: seq<Account>, a: Account)
    requires t.inflight == s.inflight && t.lastPick == s.lastPick
    ensures Insert(t, sorted, a) == Insert(s, sorted, a)
    decreases |sorted|
  {
    if sorted != [] {
      InsertFrame(s, t, sorted[..|sorted| - 1], a);
    }
  }

  lemma {:induction false} SortedFrame(s: State, t: State, accounts: seq<Account>)
    requires t.inflight == s.inflight && t.lastPick == s.lastPick
    ensures Sorted(t, accounts) == Sorted(s, accounts)
    decreases |accounts|
  {
    if accounts != [] {
      SortedFrame(s, t, accounts[..|accounts| - 1]);
      InsertFrame(s, t, Sorted(s, accounts[..|accounts| - 1]), accounts[|accounts| - 1]);
    }
  }

  lemma ReservedInflight(s: State, id: Id, now: int)
    ensures Reserved(s, id, now).inflight == s.inflight[id := Count(s.inflight, id) + 1]
    ensures Reserved(s, id, now).refreshing == s.refreshing
  {
  }

  // ---------------------------------------------------------------- the choice is minimal

  /** `b` does not come before `a`. */
  predicate NotAfter(s: State, a: Account, b: Account) {
    !Less(s, b, a)
  }

  lemma NotAfterTransitive(s: State, a: Account, b: Account, c: Account)
    requires NotAfter(s, a, b) && NotAfter(s, b, c)
    ensures NotAfter(s, a, c)
  {
    BeforeIsStrict(a.email, b.email);
    BeforeIsStrict(b.email, c.email);
    if Strings.Before(c.email, a.email) && Strings.Before(a.email, b.email) {
      BeforeIsTransitive(c.email, a.email, b.email);
    }
  }

  ghost predicate InOrder(s: State, xs: seq<Account>) {
    forall i, j :: 0 <= i <= j < |xs| ==> NotAfter(s, xs[i], xs[j])
  }

  lemma AppendInOrder(s: State, xs: seq<Account>, last: Account)
    requires InOrder(s, xs) && NotAfter(s, last, last)
    requires forall i :: 0 <= i < |xs| ==> NotAfter(s, xs[i], last)
    ensures InOrder(s, xs + [last])
  {
  }

  lemma MultisetSnoc<T>(xs: seq<T>)
    requires xs != []
    ensures multiset(xs) == multiset(xs[..|xs| - 1]) + multiset{xs[|xs| - 1]}
  {
    assert xs == xs[..|xs| - 1] + [xs[|xs| - 1]];
  }

  lemma {:induction false} InsertIsPermutation(s: State, sorted: seq<Account>, a: Account)
    ensures multiset(Insert(s, sorted, a)) == multiset(sorted) + multiset{a}
    decreases |sorted|
  {
    if sorted != [] {
      MultisetSnoc(sorted);
      InsertIsPermutation(s, sorted[..|sorted| - 1], a);
    }
  }

  lemma LessIsStrict(s: State, a: Account, b: Account)
    ensures NotAfter(s, a, b) || NotAfter(s, b, a)
  {
    BeforeIsStrict(a.email, b.email);
  }

  lemma {:induction false} InsertSorts(s: State, sorted: seq<Account>, a: Account)
    requires InOrder(s, sorted)
    ensures InOrder(s, Insert(s, sorted, a))
    decreases |sorted|
  {
    LessIsStrict(s, a, a);
    if sorted == [] {
      AppendInOrder(s, sorted, a);
    } else {
      var front, last := sorted[..|sorted| - 1], sorted[|sorted| - 1];
      LessIsStrict(s, a, last);
      if Less(s, a, last) {
        InsertSorts(s, front, a);
        InsertIsPermutation(s, front, a);
        var r := Insert(s, front, a);
        forall i | 0 <= i < |r| ensures NotAfter(s, r[i], last) {
          assert r[i] in multiset(r);
          if r[i] != a {
            assert r[i] in multiset(front);
            var j :| 0 <= j < |front| && front[j] == r[i];
            assert sorted[j] == r[i];
          }
        }
        AppendInOrder(s, r, last);
      } else {
        forall i | 0 <= i < |sorted| ensures NotAfter(s, sorted[i], a) {
          NotAfterTransitive(s, sorted[i], last, a);
        }
        AppendInOrder(s, sorted, a);
      }
    }
  }

  lemma {:induction false} SortedSorts(s: State, accounts: seq<Account>)
    ensures InOrder(s, Sorted(s, accounts))
    decreases |accounts|
  {
    if accounts != [] {
      var front := accounts[..|accounts| - 1];
      SortedSorts(s, front);
      InsertSorts(s, Sorted(s, front), accounts[|accounts| - 1]);
    }
  }

  lemma {:induction false} SortedIsPermutation(s: State, accounts: seq<Account>)
    ensures multiset(Sorted(s, accounts)) == multiset(accounts)
    decreases |accounts|
  {
    if accounts != [] {
      var front := accounts[..|accounts| - 1];
      SortedIsPermutation(s, front);
      InsertIsPermutation(s, Sorted(s, front), accounts[|accounts| - 1]);
      MultisetSnoc(accounts);
    }
  }

  predicate SameRank(s: State, a: Account, b: Account) {
    && Count(s.inflight, AccountId(a)) == Count(s.inflight, AccountId(b))
    && LastPick(s, AccountId(a)) == LastPick(s, AccountId(b))
    && a.email == b.email
  }

  /** The accounts of one kind, in order. */
  function Alike(like: Account -> bool, xs: seq<Account>): seq<Account>
    decreases |xs|
  {
    if xs == [] then [] else Alike(like, xs[..|xs| - 1]) + if like(xs[|xs| - 1]) then [xs[|xs| - 1]] else []
  }

  lemma AlikeSnoc(like: Account -> bool, xs: seq<Account>, a: Account)
    ensures Alike(like, xs + [a]) == Alike(like, xs) + if like(a) then [a] else []
  {
    assert (xs + [a])[..|xs|] == xs;
  }

  lemma AlikeSwap(like: Account -> bool, xs: seq<Account>, a: Account, b: Account)
    requires !(like(a) && like(b))
    ensures Alike(like, xs + [a] + [b]) == Alike(like, xs + [b] + [a])
  {
    AlikeSnoc(like, xs, a);
    AlikeSnoc(like, xs, b);
    AlikeSnoc(like, xs + [a], b);
    AlikeSnoc(like, xs + [b], a);
  }

  lemma AlikeAfter(like: Account -> bool, inserted: seq<Account>, front: seq<Account>, a: Account, last: Account)
    requires Alike(like, inserted) == Alike(like, front + [a]) && !(like(a) && like(last))
    ensures Alike(like, inserted + [last]) == Alike(like, front + [last] + [a])
  {
    AlikeSnoc(like, inserted, last);
    AlikeSnoc(like, front + [a], last);
    AlikeSwap(like, front, a, last);
  }

  /** A kind whose members all rank the same. */
  ghost predicate OneRank(s: State, like: Account -> bool) {
    forall x, y {:trigger like(x), like(y)} :: like(x) && like(y) ==> !Less(s, x, y)
  }

  ghost predicate StableAt(s: State, sorted: seq<Account>, a: Account, like: Account -> bool) {
    Alike(like, Insert(s, sorted, a)) == Alike(like, sorted + [a])
  }

  lemma InsertSnoc(s: State, front: seq<Account>, last: Account, a: Account)
    ensures Insert(s, front + [last], a) == if Less(s, a, last) then Insert(s, front, a) + [last] else front + [last] + [a]
  {
    assert (front + [last])[..|front|] == front;
  }

  lemma StableSnoc(s: State, front: seq<Account>, last: Account, a: Account, like: Account -> bool)
    requires StableAt(s, front, a, like) && OneRank(s, like)
    ensures StableAt(s, front + [last], a, like)
  {
    InsertSnoc(s, front, last, a);
    if Less(s, a, last) {
      AlikeAfter(like, Insert(s, front, a), front, a, last);
    }
  }

  lemma {:induction false} InsertIsStable(s: State, sorted: seq<Account>, n: nat, a: Account, like: Account -> bool)
    requires n <= |sorted| && OneRank(s, like)
    ensures StableAt(s, sorted[..n], a, like)
    decreases n
  {
    if n > 0 {
      InsertIsStable(s, sorted, n - 1, a, like);
      StableSnoc(s, sorted[..n - 1], sorted[n - 1], a, like);
      Seqs.PrefixSnoc(sorted, n);
    }
  }

  lemma {:induction false} SortedKeepsAlike(s: State, accounts: seq<Account>, like: Account -> bool)
    requires OneRank(s, like)
    ensures Alike(like, Sorted(s, accounts)) == Alike(like, accounts)
    decreases |accounts|
  {
    if accounts != [] {
      var front, last := accounts[..|accounts| - 1], accounts[|accounts| - 1];
      SortedKeepsAlike(s, front, like);
      InsertIsStable(s, Sorted(s, front), |Sorted(s, front)|, last, like);
      assert Sorted(s, front)[..|Sorted(s, front)|] == Sorted(s, front);
      AlikeSnoc(like, Sorted(s, front), last);
    }
  }

  /** Accounts of the same rank stay in the order of the list. */
  lemma SortedIsStable(s: State, accounts: seq<Account>, c: Account)
    ensures Alike(a => SameRank(s, a, c), Sorted(s, accounts)) == Alike(a => SameRank(s, a, c), accounts)
  {
    var like := (a: Account) => SameRank(s, a, c);
    forall x, y | like(x) && like(y) ensures !Less(s, x, y) {
      BeforeIsStrict(x.email, y.email);
    }
    SortedKeepsAlike(s, accounts, like);
    assert like == (a => SameRank(s, a, c));
  }

  lemma {:induction false} EligibleOfIsFilter(s: State, accounts: seq<Account>, skip: set<Id>, now: int, rpm: int)
    ensures forall a :: a in EligibleOf(s, accounts, skip, now, rpm) <==> a in accounts && Eligible(s, a, skip, now, rpm)
    decreases |accounts|
  {
    if accounts != [] {
      var front, last := accounts[..|accounts| - 1], accounts[|accounts| - 1];
      assert accounts == front + [last];
      EligibleOfIsFilter(s, front, skip, now, rpm);
    }
  }

  /** A reservation picks an eligible account that no other eligible account precedes, in
      particular one with the fewest requests in flight, and it fails only when no account is
      eligible. */
  lemma ChoiceIsMinimal(s: State, accounts: seq<Account>, skip: set<Id>, now: int, rpm: int)
    ensures match Reserve(s, accounts, skip, now, rpm).1
      case Nobody => forall a :: a in accounts ==> !Eligible(s, a, skip, now, rpm)
      case Chosen(best) =>
        && best in accounts && Eligible(s, best, skip, now, rpm)
        && forall a :: a in accounts && Eligible(s, a, skip, now, rpm) ==>
             NotAfter(s, best, a) && Count(s.inflight, AccountId(best)) <= Count(s.inflight, AccountId(a))
  {
    var eligible := EligibleOf(s, accounts, skip, now, rpm);
    EligibleOfIsFilter(s, accounts, skip, now, rpm);
    SortedSorts(s, eligible);
    SortedIsPermutation(s, eligible);
    var sorted := Sorted(s, eligible);
    forall a ensures a in eligible <==> a in sorted {
      assert a in multiset(eligible) <==> a in multiset(sorted);
    }
  }

  /** Spelled out: nobody eligible has fewer requests in flight; among those with as many, nobody
      was picked longer ago; and among those, nobody has a smaller mail address. */
  lemma ChoiceIsLeastUsed(s: State, accounts: seq<Account>, skip: set<Id>, now: int, rpm: int, a: Account)
    requires Reserve(s, accounts, skip, now, rpm).1.Chosen? && a in accounts && Eligible(s, a, skip, now, rpm)
    ensures var best := Reserve(s, accounts, skip, now, rpm).1.account;
      var mine, other := Count(s.inflight, AccountId(best)), Count(s.inflight, AccountId(a));
      && mine <= other
      && (mine == other ==> LastPick(s, AccountId(best)) <= LastPick(s, AccountId(a)))
      && (mine == other && LastPick(s, AccountId(best)) == LastPick(s, AccountId(a)) ==> !Strings.Before(a.email, best.email))
  {
    ChoiceIsMinimal(s, accounts, skip, now, rpm);
  }
}

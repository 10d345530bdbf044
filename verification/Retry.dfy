/** The retry loop of one proxied request: reserve an account, ask the upstream, end the
    reservation, and depending on the reply answer the client, give up, or try another account. */
module Retry {
  import opened Balancing = Balancer

  /** What one upstream call comes to. `cool` is how long the account rests; `refresh` says
      whether its quota is looked up again in the background. */
  datatype Reply =
    | Failed(timeout: bool)
    | Rejected(status: nat, permanent: bool, html: bool, cool: int, refresh: bool)
    | Answered(status: nat)

  /** What the outside contributes to one turn of the loop. */
  datatype Turn = Turn(now: int, rpm: int, retries: int, reply: Reply, later: int)

  const BAD_GATEWAY := 502

  predicate Retryable(status: nat) {
    status in {401, 402, 408, 409, 429, 500, 502, 503, 504, 529}
  }

  datatype Ending = Unavailable | Relayed(status: nat) | LastError(status: nat)

  function Stopped(last: nat): Ending {
    if last == 0 then Unavailable else LastError(last)
  }

  function Elements(tried: seq<Id>): set<Id> {
    set id | id in tried
  }

  // ---------------------------------------------------------------- one turn

  datatype Next = Stop(ending: Ending) | Again(last: nat)

  /** What the loop does with a reply: the state it leaves, the ends it calls, how it goes on. */
  datatype Reaction = Reaction(lb: State, log: seq<Event>, next: Next)

  /** Each of the three kinds of reply has its own way of ending the reservation. */
  function React(s: State, id: Id, t: Turn): Reaction {
    match t.reply
    case Failed(timeout) =>
      Reaction(End(s, id), [Gave(id)], if timeout then Stop(Stopped(BAD_GATEWAY)) else Again(BAD_GATEWAY))
    case Rejected(status, permanent, html, cool, refresh) =>
      var ended := End(s, id);
      if permanent then Reaction(ended, [Gave(id)], Stop(Relayed(status)))
      else if html then Reaction(ended, [Gave(id)], Stop(Stopped(status)))
      else if Retryable(status) then
        var rested := Cooled(ended, id, t.later, cool);
        Reaction(if refresh then Hold(rested, id) else rested, [Gave(id)], Again(status))
      else Reaction(ended, [Gave(id)], Stop(Relayed(status)))
    case Answered(status) => Reaction(End(s, id), [Gave(id)], Stop(Relayed(status)))
  }

  /** The two halves of a turn: whom the balancer gives, and what a reply leads to. */
  datatype Ways = Ways(
    ask: (State, seq<Id>, Turn) -> (State, Choice),
    react: (State, Id, Turn) -> Reaction)

  function WaysWith(accounts: seq<Account>): Ways {
    Ways((s: State, tried: seq<Id>, t: Turn) => Reserve(s, accounts, Elements(tried), t.now, t.rpm), React)
  }

  // ---------------------------------------------------------------- the loop

  datatype Served = Served(lb: State, tried: seq<Id>, ending: Ending, log: seq<Event>)

  /** The turns from the one after `tried` on; `log` is what happened before. */
  function Serve(w: Ways, s: State, turn: nat -> Turn, tried: seq<Id>, last: nat, log: seq<Event>): Served
    decreases MAX_RETRIES + 2 - |tried|
  {
    var t := turn(|tried|);
    if |tried| >= MaxAttempts(t.retries) then Served(s, tried, Stopped(last), log)
    else
      var (s', choice) := w.ask(s, tried, t);
      match choice
      case Nobody => Served(s', tried, Stopped(last), log)
      case Chosen(a) =>
        var id := AccountId(a);
        var r := w.react(s', id, t);
        match r.next
        case Stop(ending) => Served(r.lb, tried + [id], ending, log + [Took(id)] + r.log)
        case Again(last') => Serve(w, r.lb, turn, tried + [id], last', log + [Took(id)] + r.log)
  }

  /** Each account reserved once and its reservation ended once, one after another. */
  function Paired(tried: seq<Id>): seq<Event>
    decreases |tried|
  {
    if tried == [] then []
    else Paired(tried[..|tried| - 1]) + [Took(tried[|tried| - 1]), Gave(tried[|tried| - 1])]
  }

  /** A pair of events extends the log by one account. */
  lemma PairedSnoc(before: seq<Event>, tried: seq<Id>, id: Id)
    ensures before + Paired(tried) + [Took(id)] + [Gave(id)] == before + Paired(tried + [id])
    ensures Paired(tried) + [Took(id)] + [Gave(id)] == Paired(tried + [id])
  {
    assert (tried + [id])[..|tried|] == tried;
  }

  /** What the loop still does from here completes the whole. */
  ghost predicate Underway(w: Ways, whole: Served, turn: nat -> Turn, now: State, tried: seq<Id>, last: nat) {
    Serve(w, now, turn, tried, last, Paired(tried)) == whole
  }

  lemma OneTurn(w: Ways, whole: Served, turn: nat -> Turn, now: State, tried: seq<Id>, last: nat)
    requires EndsOnce(w)
    requires Underway(w, whole, turn, now, tried, last) && |tried| < MaxAttempts(turn(|tried|).retries)
    ensures var (next, choice) := w.ask(now, tried, turn(|tried|));
      match choice
      case Nobody => whole == Served(next, tried, Stopped(last), Paired(tried))
      case Chosen(a) =>
        var all := tried + [AccountId(a)];
        var r := w.react(next, AccountId(a), turn(|tried|));
        match r.next
        case Stop(ending) => whole == Served(r.lb, all, ending, Paired(all))
        case Again(last') => Underway(w, whole, turn, r.lb, all, last')
  {
    var choice := w.ask(now, tried, turn(|tried|)).1;
    if choice.Chosen? {
      PairedSnoc([], tried, AccountId(choice.account));
    }
  }

  /** Asking: a reservation, or nobody. */
  method Attempt(lb: Balancer, accounts: seq<Account>, tried: seq<Id>, t: Turn) returns (choice: Choice, next: Next)
    modifies lb
    ensures choice == Reserve(old(lb.View()), accounts, Elements(tried), t.now, t.rpm).1
    ensures var reserved := Reserve(old(lb.View()), accounts, Elements(tried), t.now, t.rpm).0;
      match choice
      case Nobody => lb.View() == reserved && lb.log == old(lb.log)
      case Chosen(a) =>
        && lb.View() == React(reserved, AccountId(a), t).lb && next == React(reserved, AccountId(a), t).next
        && lb.log == old(lb.log) + [Took(AccountId(a))] + [Gave(AccountId(a))]
  {
    next := Again(0);
    choice := lb.ReserveWithRpm(accounts, Elements(tried), t.now, t.rpm);
    if choice.Chosen? {
      next := Settle(lb, AccountId(choice.account), t);
    }
  }

  /** The transport error, the rejection and the answer each end the reservation on their own way
      out, and no way out leaves it open or ends it twice. */
  method Settle(lb: Balancer, id: Id, t: Turn) returns (next: Next)
    modifies lb
    ensures lb.View() == React(old(lb.View()), id, t).lb && next == React(old(lb.View()), id, t).next
    ensures lb.log == old(lb.log) + [Gave(id)]
  {
    match t.reply {
      case Failed(timeout) =>
        lb.EndRequest(id);
        if timeout {
          return Stop(LastError(BAD_GATEWAY));
        }
        return Again(BAD_GATEWAY);
      case Rejected(status, permanent, html, cool, refresh) =>
        lb.EndRequest(id);
        if permanent {
          return Stop(Relayed(status));
        }
        if html {
          return Stop(Stopped(status));
        }
        if !Retryable(status) {
          return Stop(Relayed(status));
        }
        lb.Cooldown(id, t.later, cool);
        if refresh {
          lb.HoldAccount(id);
        }
        return Again(status);
      case Answered(status) =>
        lb.EndRequest(id);
        return Stop(Relayed(status));
    }
  }

  /** A turn with the accounts of the pool. */
  lemma OneTurnWith(accounts: seq<Account>, whole: Served, turn: nat -> Turn, now: State, tried: seq<Id>, last: nat)
    requires Underway(WaysWith(accounts), whole, turn, now, tried, last)
    requires |tried| < MaxAttempts(turn(|tried|).retries)
    ensures var t := turn(|tried|);
      var (next, choice) := Reserve(now, accounts, Elements(tried), t.now, t.rpm);
      match choice
      case Nobody => whole == Served(next, tried, Stopped(last), Paired(tried))
      case Chosen(a) =>
        var all := tried + [AccountId(a)];
        var r := React(next, AccountId(a), t);
        match r.next
        case Stop(ending) => whole == Served(r.lb, all, ending, Paired(all))
        case Again(last') => Underway(WaysWith(accounts), whole, turn, r.lb, all, last')
  {
    ReactEndsOnce(accounts);
    OneTurn(WaysWith(accounts), whole, turn, now, tried, last);
  }

  method ServeRequest(lb: Balancer, accounts: seq<Account>, turn: nat -> Turn)
    returns (tried: seq<Id>, ending: Ending)
    modifies lb
    ensures var served := Serve(WaysWith(accounts), old(lb.View()), turn, [], 0, []);
      lb.View() == served.lb && tried == served.tried && ending == served.ending
    ensures lb.log == old(lb.log) + Paired(tried)
  {
    tried := [];
    var last: nat := 0;
    ghost var before := lb.log;
    ghost var whole := Serve(WaysWith(accounts), lb.View(), turn, [], 0, []);
    assert before + Paired(tried) == before;
    while |tried| < MaxAttempts(turn(|tried|).retries)
      invariant Underway(WaysWith(accounts), whole, turn, lb.View(), tried, last)
      invariant lb.log == before + Paired(tried)
      decreases MAX_RETRIES + 1 - |tried|
    {
      OneTurnWith(accounts, whole, turn, lb.View(), tried, last);
      var choice, next := Attempt(lb, accounts, tried, turn(|tried|));
      if choice.Nobody? {
        break;
      }
      PairedSnoc(before, tried, AccountId(choice.account));
      tried := tried + [AccountId(choice.account)];
      match next {
        case Stop(end) => return tried, end;
        case Again(status) => last := status;
      }
    }
    ending := Stopped(last);
  }

  // ---------------------------------------------------------------- every path ends what it took

  /** Whatever the reply, its branch calls end exactly once, for the account at hand. */
  ghost predicate EndsOnce(w: Ways) {
    forall s: State, id: Id, t: Turn {:trigger w.react(s, id, t)} :: w.react(s, id, t).log == [Gave(id)]
  }

  lemma ReactEndsOnce(accounts: seq<Account>)
    ensures EndsOnce(WaysWith(accounts))
  {
    forall s: State, id: Id, t: Turn ensures React(s, id, t).log == [Gave(id)] {
    }
  }

  lemma {:induction false} ServeLogsPairs(w: Ways, s: State, turn: nat -> Turn, tried: seq<Id>, last: nat)
    requires EndsOnce(w)
    ensures var r := Serve(w, s, turn, tried, last, Paired(tried));
      r.log == Paired(r.tried)
    decreases MAX_RETRIES + 2 - |tried|
  {
    var t := turn(|tried|);
    if |tried| < MaxAttempts(t.retries) {
      var (s', choice) := w.ask(s, tried, t);
      if choice.Chosen? {
        var id := AccountId(choice.account);
        var r := w.react(s', id, t);
        PairedSnoc([], tried, id);
        if r.next.Again? {
          ServeLogsPairs(w, r.lb, turn, tried + [id], r.next.last);
        }
      }
    }
  }

  lemma {:induction false} PairedCounts(tried: seq<Id>, id: Id)
    ensures multiset(Paired(tried))[Took(id)] == multiset(tried)[id]
    ensures multiset(Paired(tried))[Gave(id)] == multiset(tried)[id]
    decreases |tried|
  {
    if tried != [] {
      var front, last := tried[..|tried| - 1], tried[|tried| - 1];
      PairedCounts(front, id);
      MultisetSnoc(tried);
      assert multiset(Paired(tried)) == multiset(Paired(front)) + multiset([Took(last), Gave(last)]);
    }
  }

  lemma {:induction false} DistinctCounts(tried: seq<Id>, id: Id)
    requires Distinct(tried)
    ensures multiset(tried)[id] == if id in tried then 1 else 0
    decreases |tried|
  {
    if tried != [] {
      var front, last := tried[..|tried| - 1], tried[|tried| - 1];
      DistinctCounts(front, id);
      assert tried == front + [last];
      assert last !in front;
    }
  }

  /** However the loop stops, each account it tried was reserved once and ended once, one after
      the other, and no other account was touched. */
  lemma EachEndedOnce(accounts: seq<Account>, s: State, turn: nat -> Turn, id: Id)
    ensures var r := Serve(WaysWith(accounts), s, turn, [], 0, []);
      && r.log == Paired(r.tried)
      && multiset(r.log)[Took(id)] == multiset(r.log)[Gave(id)] == if id in r.tried then 1 else 0
  {
    var r := Serve(WaysWith(accounts), s, turn, [], 0, []);
    ReactEndsOnce(accounts);
    ServeLogsPairs(WaysWith(accounts), s, turn, [], 0);
    ServeTriesDistinct(accounts, s, turn);
    PairedCounts(r.tried, id);
    DistinctCounts(r.tried, id);
  }

  // ---------------------------------------------------------------- in flight, read off the log

  /** The in-flight counter of an account after a log: an end takes one off, never below zero,
      and does nothing for the empty name. */
  function Replay(count: int, log: seq<Event>, id: Id): int
    decreases |log|
  {
    if log == [] then count
    else
      var before := Replay(count, log[..|log| - 1], id);
      match log[|log| - 1]
      case Took(other) => if other == id then before + 1 else before
      case Gave(other) => if other == id && id != "" && before > 0 then before - 1 else before
  }

  lemma {:induction false} ReplayConcat(count: int, a: seq<Event>, b: seq<Event>, id: Id)
    ensures Replay(count, a + b, id) == Replay(Replay(count, a, id), b, id)
    decreases |b|
  {
    if b == [] {
      assert a + b == a;
    } else {
      assert (a + b)[..|a + b| - 1] == a + b[..|b| - 1];
      ReplayConcat(count, a, b[..|b| - 1], id);
    }
  }

  /** Asking and reacting change the counter as their events say. */
  ghost predicate CountsAsLogged(w: Ways, id: Id) {
    && (forall s: State, tried: seq<Id>, t: Turn {:trigger w.ask(s, tried, t)} ::
          Count(w.ask(s, tried, t).0.inflight, id) == Count(s.inflight, id)
            + if w.ask(s, tried, t).1.Chosen? && AccountId(w.ask(s, tried, t).1.account) == id then 1 else 0)
    && (forall s: State, other: Id, t: Turn {:trigger w.react(s, other, t)} ::
          Count(w.react(s, other, t).lb.inflight, id) == Replay(Count(s.inflight, id), w.react(s, other, t).log, id))
  }

  lemma AskCounts(s: State, accounts: seq<Account>, tried: seq<Id>, t: Turn, id: Id)
    ensures var (next, choice) := Reserve(s, accounts, Elements(tried), t.now, t.rpm);
      Count(next.inflight, id) == Count(s.inflight, id)
        + if choice.Chosen? && AccountId(choice.account) == id then 1 else 0
  {
    LookingKeepsOrder(s, accounts, Elements(tried), t.now);
    match Reserve(s, accounts, Elements(tried), t.now, t.rpm).1
    case Nobody =>
    case Chosen(a) => ReservedInflight(LookedAll(s, accounts, Elements(tried), t.now), AccountId(a), t.now);
  }

  lemma ReactCounts(s: State, other: Id, t: Turn, id: Id)
    ensures Count(React(s, other, t).lb.inflight, id) == Replay(Count(s.inflight, id), React(s, other, t).log, id)
  {
    assert React(s, other, t).lb.inflight == End(s, other).inflight;
    assert React(s, other, t).log == [Gave(other)];
  }

  lemma WaysCount(accounts: seq<Account>, id: Id)
    ensures CountsAsLogged(WaysWith(accounts), id)
  {
    var w := WaysWith(accounts);
    forall s: State, tried: seq<Id>, t: Turn
      ensures Count(w.ask(s, tried, t).0.inflight, id) == Count(s.inflight, id)
        + if w.ask(s, tried, t).1.Chosen? && AccountId(w.ask(s, tried, t).1.account) == id then 1 else 0
    {
      AskCounts(s, accounts, tried, t, id);
    }
    forall s: State, other: Id, t: Turn
      ensures Count(w.react(s, other, t).lb.inflight, id) == Replay(Count(s.inflight, id), w.react(s, other, t).log, id)
    {
      ReactCounts(s, other, t, id);
    }
  }

  lemma TurnReplays(count: int, before: seq<Event>, taken: Id, log: seq<Event>, id: Id)
    ensures var now := Replay(count, before, id);
      Replay(count, before + [Took(taken)] + log, id) == Replay(if taken == id then now + 1 else now, log, id)
  {
    ReplayConcat(count, before, [Took(taken)], id);
    ReplayConcat(count, before + [Took(taken)], log, id);
  }

  lemma {:induction false} ServeReplays(
    w: Ways, s: State, turn: nat -> Turn, tried: seq<Id>, last: nat, log: seq<Event>, count: int, id: Id)
    requires CountsAsLogged(w, id) && Count(s.inflight, id) == Replay(count, log, id)
    ensures var r := Serve(w, s, turn, tried, last, log);
      Count(r.lb.inflight, id) == Replay(count, r.log, id)
    decreases MAX_RETRIES + 2 - |tried|
  {
    var t := turn(|tried|);
    if |tried| < MaxAttempts(t.retries) {
      var (s', choice) := w.ask(s, tried, t);
      if choice.Chosen? {
        var taken := AccountId(choice.account);
        var r := w.react(s', taken, t);
        TurnReplays(count, log, taken, r.log, id);
        if r.next.Again? {
          ServeReplays(w, r.lb, turn, tried + [taken], r.next.last, log + [Took(taken)] + r.log, count, id);
        }
      }
    }
  }

  lemma {:induction false} PairsBalance(count: int, tried: seq<Id>, id: Id)
    requires id != "" && count >= 0
    ensures Replay(count, Paired(tried), id) == count
    decreases |tried|
  {
    if tried != [] {
      var front, last := tried[..|tried| - 1], tried[|tried| - 1];
      PairsBalance(count, front, id);
      TurnReplays(count, Paired(front), last, [Gave(last)], id);
      PairedSnoc([], front, last);
      assert front + [last] == tried;
    }
  }

  /** Whatever the upstream answers, the log shows every reservation ended, and so the in-flight
      count of every named account is what it was before. */
  lemma ServeEndsReservations(accounts: seq<Account>, s: State, turn: nat -> Turn, id: Id)
    requires id != "" && Count(s.inflight, id) >= 0
    ensures Count(Serve(WaysWith(accounts), s, turn, [], 0, []).lb.inflight, id) == Count(s.inflight, id)
  {
    var r := Serve(WaysWith(accounts), s, turn, [], 0, []);
    WaysCount(accounts, id);
    ServeReplays(WaysWith(accounts), s, turn, [], 0, [], Count(s.inflight, id), id);
    EachEndedOnce(accounts, s, turn, id);
    PairsBalance(Count(s.inflight, id), r.tried, id);
  }

  // ---------------------------------------------------------------- whom the loop tries

  /** A turn never takes an account that was tried already. */
  ghost predicate TakesUntried(w: Ways) {
    forall s: State, tried: seq<Id>, t: Turn {:trigger w.ask(s, tried, t)} ::
      w.ask(s, tried, t).1.Chosen? ==> AccountId(w.ask(s, tried, t).1.account) !in Elements(tried)
  }

  lemma AskedUntried(accounts: seq<Account>)
    ensures TakesUntried(WaysWith(accounts))
  {
    forall s: State, tried: seq<Id>, t: Turn | Reserve(s, accounts, Elements(tried), t.now, t.rpm).1.Chosen?
      ensures AccountId(Reserve(s, accounts, Elements(tried), t.now, t.rpm).1.account) !in Elements(tried)
    {
      ChoiceIsMinimal(s, accounts, Elements(tried), t.now, t.rpm);
    }
  }

  ghost predicate Distinct(tried: seq<Id>) {
    forall i, j :: 0 <= i < j < |tried| ==> tried[i] != tried[j]
  }

  lemma DistinctSnoc(tried: seq<Id>, id: Id)
    requires Distinct(tried) && id !in Elements(tried)
    ensures Distinct(tried + [id])
  {
  }

  lemma {:induction false} ServeKeepsDistinct(
    w: Ways, s: State, turn: nat -> Turn, tried: seq<Id>, last: nat, log: seq<Event>)
    requires TakesUntried(w) && Distinct(tried) && |tried| <= MAX_RETRIES + 1
    ensures var all := Serve(w, s, turn, tried, last, log).tried;
      Distinct(all) && |all| <= MAX_RETRIES + 1
    decreases MAX_RETRIES + 2 - |tried|
  {
    var t := turn(|tried|);
    if |tried| < MaxAttempts(t.retries) {
      var (s', choice) := w.ask(s, tried, t);
      if choice.Chosen? {
        var id := AccountId(choice.account);
        var r := w.react(s', id, t);
        DistinctSnoc(tried, id);
        if r.next.Again? {
          ServeKeepsDistinct(w, r.lb, turn, tried + [id], r.next.last, log + [Took(id)] + r.log);
        }
      }
    }
  }

  /** No account is tried twice, and never more than 33 of them. */
  lemma ServeTriesDistinct(accounts: seq<Account>, s: State, turn: nat -> Turn)
    ensures var all := Serve(WaysWith(accounts), s, turn, [], 0, []).tried;
      Distinct(all) && |all| <= 33
  {
    AskedUntried(accounts);
    ServeKeepsDistinct(WaysWith(accounts), s, turn, [], 0, []);
  }

  // ---------------------------------------------------------------- why the loop stops

  datatype Verdict = TryNext | GiveUp | Answer

  /** What a reply calls for. */
  function Judge(reply: Reply): Verdict {
    match reply
    case Failed(timeout) => if timeout then GiveUp else TryNext
    case Rejected(status, permanent, html, _, _) =>
      if permanent then Answer else if html then GiveUp else if Retryable(status) then TryNext else Answer
    case Answered(_) => Answer
  }

  function Status(reply: Reply): nat {
    if reply.Failed? then BAD_GATEWAY else reply.status
  }

  function Verdicted(reply: Reply): Next {
    match Judge(reply)
    case Answer => Stop(Relayed(Status(reply)))
    case GiveUp => Stop(Stopped(Status(reply)))
    case TryNext => Again(Status(reply))
  }

  ghost predicate FollowsVerdict(w: Ways) {
    forall s: State, id: Id, t: Turn {:trigger w.react(s, id, t)} :: w.react(s, id, t).next == Verdicted(t.reply)
  }

  lemma ReactFollowsVerdict(accounts: seq<Account>)
    ensures FollowsVerdict(WaysWith(accounts))
  {
    forall s: State, id: Id, t: Turn ensures React(s, id, t).next == Verdicted(t.reply) {
    }
  }

  /** Exactly these replies lead to another try: a transport error that is no timeout, and a
      rejection with one of these statuses that is neither permanent nor a rate-limit page. */
  lemma TriesAgainExactly(s: State, id: Id, t: Turn)
    ensures React(s, id, t).next.Again? <==>
      match t.reply
      case Failed(timeout) => !timeout
      case Answered(_) => false
      case Rejected(status, permanent, html, _, _) =>
        && !permanent && !html
        && (status == 401 || status == 402 || status == 408 || status == 409 || status == 429
            || status == 500 || status == 502 || status == 503 || status == 504 || status == 529)
  {
  }

  /** A reply that leads to no other try is passed on to the client, except a timeout, which counts as
      a bad gateway, and a rate-limit page, of which only the status is kept. */
  lemma StopsWith(s: State, id: Id, t: Turn)
    requires React(s, id, t).next.Stop?
    ensures React(s, id, t).next.ending ==
      match t.reply
      case Failed(_) => LastError(502)
      case Answered(status) => Relayed(status)
      case Rejected(status, permanent, html, _, _) =>
        if permanent || !html then Relayed(status) else if status == 0 then Unavailable else LastError(status)
  {
  }

  /** A reply that leads to another try leaves its status as the last error. */
  lemma GoesOnWith(s: State, id: Id, t: Turn)
    requires React(s, id, t).next.Again?
    ensures React(s, id, t).next.last == if t.reply.Failed? then 502 else t.reply.status
  {
  }

  lemma EndTouchesCountOnly(s: State, id: Id)
    ensures End(s, id).cool == s.cool && End(s, id).refreshing == s.refreshing
  {
  }

  predicate TurnedAway(reply: Reply) {
    reply.Rejected? && Judge(reply).TryNext?
  }

  /** A rejection that leads to another try lets the account rest from then on; no other reply
      does. */
  lemma RejectionRests(s: State, id: Id, t: Turn)
    ensures React(s, id, t).lb.cool
      == if TurnedAway(t.reply) && t.reply.cool > 0 && id != "" then s.cool[id := t.later + t.reply.cool] else s.cool
  {
    EndTouchesCountOnly(s, id);
  }

  /** It also holds the account while its quota is looked up again. */
  lemma RejectionHolds(s: State, id: Id, t: Turn, other: Id)
    ensures Count(React(s, id, t).lb.refreshing, other)
      == Count(s.refreshing, other) + if TurnedAway(t.reply) && t.reply.refresh && id != "" && other == id then 1 else 0
  {
    EndTouchesCountOnly(s, id);
  }

  /** Why the loop stopped, read off the last reply it saw: it answers the client exactly when
      that reply asks for it, reports the last error otherwise, and is unavailable only when it
      found nobody to ask. Every reply before the last one asked for another try. */
  ghost predicate Explained(served: Served, turn: nat -> Turn, from: nat, last: nat) {
    var n := |served.tried|;
    && n >= from
    && (forall k :: from <= k < n - 1 ==> Judge(turn(k).reply).TryNext?)
    && if n == from then served.ending == Stopped(last)
       else var reply := turn(n - 1).reply;
         served.ending == if Judge(reply).Answer? then Relayed(Status(reply)) else Stopped(Status(reply))
  }

  lemma {:induction false} ServeFollowsVerdicts(
    w: Ways, s: State, turn: nat -> Turn, tried: seq<Id>, last: nat, log: seq<Event>)
    requires FollowsVerdict(w)
    ensures Explained(Serve(w, s, turn, tried, last, log), turn, |tried|, last)
    decreases MAX_RETRIES + 2 - |tried|
  {
    var t := turn(|tried|);
    if |tried| < MaxAttempts(t.retries) {
      var (s', choice) := w.ask(s, tried, t);
      if choice.Chosen? {
        var id := AccountId(choice.account);
        var r := w.react(s', id, t);
        if r.next.Again? {
          ServeFollowsVerdicts(w, r.lb, turn, tried + [id], r.next.last, log + [Took(id)] + r.log);
        }
      }
    }
  }

  lemma ServeIsExplained(accounts: seq<Account>, s: State, turn: nat -> Turn)
    ensures Explained(Serve(WaysWith(accounts), s, turn, [], 0, []), turn, 0, 0)
  {
    ReactFollowsVerdict(accounts);
    ServeFollowsVerdicts(WaysWith(accounts), s, turn, [], 0, []);
  }

  /** Whether an account can be taken, for the accounts tried and the turn at hand. */
  type Fitness = (State, seq<Id>, Turn) -> bool

  function Fit(a: Account): Fitness {
    (s: State, tried: seq<Id>, t: Turn) => Eligible(s, a, Elements(tried), t.now, t.rpm)
  }

  /** A turn finds nobody only when the account cannot be taken, and then still cannot. */
  ghost predicate OverlooksNot(w: Ways, fit: Fitness) {
    forall s: State, tried: seq<Id>, t: Turn {:trigger w.ask(s, tried, t)} ::
      w.ask(s, tried, t).1.Nobody? ==> !fit(w.ask(s, tried, t).0, tried, t)
  }

  lemma AskedOverlooksNot(accounts: seq<Account>, a: Account)
    requires a in accounts
    ensures OverlooksNot(WaysWith(accounts), Fit(a))
  {
    forall s: State, tried: seq<Id>, t: Turn | Reserve(s, accounts, Elements(tried), t.now, t.rpm).1.Nobody?
      ensures !Eligible(Reserve(s, accounts, Elements(tried), t.now, t.rpm).0, a, Elements(tried), t.now, t.rpm)
    {
      ChoiceIsMinimal(s, accounts, Elements(tried), t.now, t.rpm);
      LookingKeepsEligibility(s, accounts, a, Elements(tried), t.now, t.rpm);
    }
  }

  /** The loop ran dry: it may still try, the last reply asked for it, and yet it stopped. */
  predicate Dry(served: Served, turn: nat -> Turn, from: nat) {
    var n := |served.tried|;
    n < MaxAttempts(turn(n).retries) && (n <= from || Judge(turn(n - 1).reply).TryNext?)
  }

  lemma {:induction false} ServeOverlooksNot(
    w: Ways, s: State, turn: nat -> Turn, tried: seq<Id>, last: nat, log: seq<Event>, fit: Fitness)
    requires OverlooksNot(w, fit) && FollowsVerdict(w)
    ensures var r := Serve(w, s, turn, tried, last, log);
      Dry(r, turn, |tried|) ==> !fit(r.lb, r.tried, turn(|r.tried|))
    decreases MAX_RETRIES + 2 - |tried|
  {
    var t := turn(|tried|);
    if |tried| < MaxAttempts(t.retries) {
      var (s', choice) := w.ask(s, tried, t);
      if choice.Chosen? {
        var id := AccountId(choice.account);
        var r := w.react(s', id, t);
        if r.next.Again? {
          ServeFollowsVerdicts(w, r.lb, turn, tried + [id], r.next.last, log + [Took(id)] + r.log);
          ServeOverlooksNot(w, r.lb, turn, tried + [id], r.next.last, log + [Took(id)] + r.log, fit);
        }
      }
    }
  }

  /** It runs dry only when no account it has not tried is eligible any more. */
  lemma StopsOnlyWhenDry(accounts: seq<Account>, s: State, turn: nat -> Turn, a: Account)
    requires a in accounts
    ensures var r := Serve(WaysWith(accounts), s, turn, [], 0, []);
      var t := turn(|r.tried|);
      Dry(r, turn, 0) ==> !Eligible(r.lb, a, Elements(r.tried), t.now, t.rpm)
  {
    AskedOverlooksNot(accounts, a);
    ReactFollowsVerdict(accounts);
    ServeOverlooksNot(WaysWith(accounts), s, turn, [], 0, [], Fit(a));
  }
}

/** The two-slot ledger of prepaid cards as plain counters: how often a card may still be used,
    how often it has been, and how many uses are under way. */
module CardLedger {
  import opened Strings

  const DEFAULT_AMOUNT := 20.0
  const PAY_PER_ACCOUNT := 5.3
  const TOLERANCE := 0.000000001
  const MAX_PAYS := 3
  const STALE_AFTER := 7 * 60

  datatype Slot = Slot(
    no: string, code: string, task: string, ram: string, startedAt: int, amount: real, paid: int, inUse: int)

  const BLANK := Slot("", "", "", "", 0, 0.0, 0, 0)

  datatype Option<T> = None | Some(value: T)

  datatype Ledger = Ledger(cur: Slot, next: Option<Slot>)

  const EMPTY := Ledger(BLANK, None)

  function Effective(amount: real): real {
    if amount <= 0.0 then DEFAULT_AMOUNT else amount
  }

  /** How many payments a card covers: as many as its amount pays for, at least one, at most
      three. */
  function MaxPays(amount: real): (k: int)
    ensures 1 <= k <= 3
    ensures k > 1 ==> k as real * PAY_PER_ACCOUNT <= Effective(amount) + TOLERANCE * PAY_PER_ACCOUNT
    ensures k < 3 ==> Effective(amount) + TOLERANCE * PAY_PER_ACCOUNT < (k + 1) as real * PAY_PER_ACCOUNT
  {
    var n := (Effective(amount) / PAY_PER_ACCOUNT + TOLERANCE).Floor;
    if n > MAX_PAYS then MAX_PAYS else if n < 1 then 1 else n
  }

  function RemainingPays(amount: real, paid: int): (n: nat)
    ensures n == 0 <==> paid >= MaxPays(amount)
    ensures n > 0 ==> n + paid == MaxPays(amount)
  {
    var n := MaxPays(amount) - paid;
    if n < 0 then 0 else n
  }

  function Digits(s: string): string
    decreases |s|
  {
    if s == "" then ""
    else
      var front, last := Digits(s[..|s| - 1]), s[|s| - 1];
      if '0' <= last <= '9' then front + [last] else front
  }

  function Last4(no: string): string {
    var d := Digits(no);
    if |d| < 4 then d else d[|d| - 4..]
  }

  predicate Ready(s: Slot) {
    s.no != "" && s.code != ""
  }

  predicate Pending(s: Slot) {
    !Ready(s) && s.task != "" && s.ram != ""
  }

  predicate Fresh(s: Slot, now: int) {
    Pending(s) && s.startedAt > 0 && now - s.startedAt <= STALE_AFTER
  }

  predicate Exhausted(s: Slot) {
    Ready(s) && RemainingPays(s.amount, s.paid) <= 0
  }

  predicate Usable(s: Slot) {
    Ready(s) && !Exhausted(s)
  }

  // ---------------------------------------------------------------- operations

  function Taken(s: Slot): Slot {
    s.(paid := s.paid + 1, inUse := s.inUse + 1)
  }

  function Reserve(l: Ledger): (Ledger, Option<Slot>) {
    if Usable(l.cur) then (l.(cur := Taken(l.cur)), Some(Taken(l.cur)))
    else if l.next.Some? && Usable(l.next.value) then (l.(next := Some(Taken(l.next.value))), Some(Taken(l.next.value)))
    else (l, None)
  }

  predicate Hits(s: Slot, last4: string) {
    if last4 == "" then Ready(s) else Last4(s.no) == last4
  }

  /** A use that neither succeeded nor was refused gives its payment back. */
  function Returned(s: Slot, success: bool, rejected: bool): Slot {
    s.(inUse := if s.inUse > 0 then s.inUse - 1 else s.inUse,
       paid := if !success && !rejected && s.paid > 0 then s.paid - 1 else s.paid)
  }

  function Recycle(l: Ledger): Ledger {
    var next := if l.next.Some? && Exhausted(l.next.value) && l.next.value.inUse == 0 then None else l.next;
    if Exhausted(l.cur) && l.cur.inUse == 0 then
      if next.Some? then Ledger(next.value, None) else EMPTY
    else l.(next := next)
  }

  function Release(l: Ledger, last4: string, success: bool, rejected: bool): Ledger {
    if Hits(l.cur, last4) then Recycle(l.(cur := Returned(l.cur, success, rejected)))
    else if l.next.Some? && Hits(l.next.value, last4) then
      Recycle(l.(next := Some(Returned(l.next.value, success, rejected))))
    else l
  }

  function Discard(l: Ledger): Ledger {
    if l.next.Some? && (Ready(l.next.value) || Pending(l.next.value)) then Ledger(l.next.value, None) else EMPTY
  }

  /** What beginning a card comes to: nothing to do, a running task to wait for, or a new one. */
  datatype Begun = Nothing(asNext: bool) | Running(asNext: bool, task: string, ram: string) | Refused

  function Kept(s: Option<Slot>): Option<Slot> {
    if s.Some? && (Ready(s.value) || Pending(s.value)) then s else None
  }

  /** A used-up card that nobody uses any more makes room. */
  function Cleared(l: Ledger): Ledger {
    if Exhausted(l.cur) && l.cur.inUse == 0 then Ledger(BLANK, Kept(l.next)) else l
  }

  function Begin(l: Ledger, submitted: Option<(string, string)>, amount: real, now: int): (Ledger, Begun) {
    if Usable(l.cur) then (l, Nothing(false))
    else if Fresh(l.cur, now) then (l, Running(false, l.cur.task, l.cur.ram))
    else if l.next.Some? && Usable(l.next.value) then (l, Nothing(true))
    else if l.next.Some? && Fresh(l.next.value, now) then (l, Running(true, l.next.value.task, l.next.value.ram))
    else
      var c := Cleared(l);
      if submitted.None? then (c, Refused)
      else
        var (task, ram) := submitted.value;
        var pending := BLANK.(task := task, ram := ram, startedAt := now, amount := amount);
        if Ready(c.cur) then (c.(next := Kept(Some(pending))), Running(true, task, ram))
        else (Ledger(pending, Kept(c.next)), Running(false, task, ram))
  }

  function Finish(l: Ledger, card: Slot, asNext: bool): Ledger
    requires Ready(card) && card.paid == 0 && card.inUse == 0
  {
    if asNext then
      if l.next.Some? && Ready(l.next.value) && l.next.value.no != card.no then l else l.(next := Some(card))
    else if Ready(l.cur) && l.cur.no != card.no then l
    else l.(cur := card.(paid := l.cur.paid, inUse := l.cur.inUse))
  }

  function Fail(l: Ledger, task: string, asNext: bool): Ledger {
    if asNext then
      if l.next.Some? && l.next.value.task == task && !Ready(l.next.value) then l.(next := None) else l
    else if l.cur.task == task && !Ready(l.cur) then Ledger(BLANK, l.next)
    else l
  }

  // ---------------------------------------------------------------- the stored card

  class Store {
    var cur: Slot
    var next: Option<Slot>

    constructor ()
      ensures View() == EMPTY
    {
      cur, next := BLANK, None;
    }

    function View(): Ledger
      reads this
    {
      Ledger(cur, next)
    }

    method TryReserveReady() returns (card: Option<Slot>)
      modifies this
      ensures (View(), card) == Reserve(old(View()))
    {
      if Usable(cur) {
        cur := cur.(paid := cur.paid + 1);
        cur := cur.(inUse := cur.inUse + 1);
        return Some(cur);
      }
      if next.Some? && Usable(next.value) {
        next := Some(next.value.(paid := next.value.paid + 1, inUse := next.value.inUse + 1));
        return next;
      }
      card := None;
    }

    method DiscardCurrent()
      modifies this
      ensures View() == Discard(old(View()))
    {
      if next.Some? && (Ready(next.value) || Pending(next.value)) {
        cur, next := next.value, None;
        return;
      }
      cur, next := BLANK, None;
    }

    method RecycleCard()
      modifies this
      ensures View() == Recycle(old(View()))
    {
      if next.Some? && Exhausted(next.value) && next.value.inUse == 0 {
        next := None;
      }
      if Ready(cur) && Exhausted(cur) && cur.inUse == 0 {
        if next.Some? {
          cur, next := next.value, None;
          return;
        }
        cur, next := BLANK, None;
      }
    }

    /** One use given back, if the slot holds the card with the key, or any card without a key. */
    static method GiveBack(s: Slot, last4: string, success: bool, rejected: bool) returns (hit: bool, slot: Slot)
      ensures hit == Hits(s, last4)
      ensures slot == if hit then Returned(s, success, rejected) else s
    {
      slot := s;
      if !(last4 != "" && Last4(s.no) == last4) && last4 != "" {
        return false, slot;
      }
      if last4 == "" && !Ready(s) {
        return false, slot;
      }
      if slot.inUse > 0 {
        slot := slot.(inUse := slot.inUse - 1);
      }
      if !success && !rejected && slot.paid > 0 {
        slot := slot.(paid := slot.paid - 1);
      }
      hit := true;
    }

    /** The fallback for a missing key is written as in the original; it is never reached. */
    method ReleaseCard(key: string, success: bool, rejected: bool)
      modifies this
      ensures View() == Release(old(View()), Trim(key), success, rejected)
    {
      var last4 := Trim(key);
      var hit;
      hit, cur := GiveBack(cur, last4, success, rejected);
      if !hit && next.Some? {
        var slot;
        hit, slot := GiveBack(next.value, last4, success, rejected);
        next := Some(slot);
      }
      if !hit && last4 == "" && Ready(cur) {
        assert false;
      }
      if hit {
        RecycleCard();
      }
    }

    method BeginCreate(submitted: Option<(string, string)>, amount: real, now: int) returns (begun: Begun)
      modifies this
      ensures (View(), begun) == Begin(old(View()), submitted, amount, now)
    {
      if Usable(cur) {
        return Nothing(false);
      }
      if Fresh(cur, now) {
        return Running(false, cur.task, cur.ram);
      }
      if next.Some? && Usable(next.value) {
        return Nothing(true);
      }
      if next.Some? && Fresh(next.value, now) {
        return Running(true, next.value.task, next.value.ram);
      }
      if Ready(cur) && Exhausted(cur) && cur.inUse == 0 {
        cur, next := BLANK, Kept(next);
      }
      var asNext := Ready(cur);
      if submitted.None? {
        return Refused;
      }
      var (task, ram) := submitted.value;
      var pending := BLANK.(task := task, ram := ram, startedAt := now, amount := amount);
      if asNext {
        next := Kept(Some(pending));
        return Running(true, task, ram);
      }
      cur, next := pending, Kept(next);
      begun := Running(false, task, ram);
    }

    method FinishCreate(card: Slot, asNext: bool)
      requires Ready(card) && card.paid == 0 && card.inUse == 0
      modifies this
      ensures View() == Finish(old(View()), card, asNext)
    {
      if asNext {
        if next.Some? && Ready(next.value) && next.value.no != card.no {
          return;
        }
        next := Some(card);
        return;
      }
      if Ready(cur) && cur.no != card.no {
        return;
      }
      cur := card.(paid := cur.paid, inUse := cur.inUse);
    }

    method FailCreate(task: string, asNext: bool)
      modifies this
      ensures View() == Fail(old(View()), task, asNext)
    {
      if asNext {
        if next.Some? && next.value.task == task && !Ready(next.value) {
          next := None;
        }
      } else if cur.task == task && !Ready(cur) {
        cur := BLANK;
      }
    }
  }

  // ---------------------------------------------------------------- what becomes of a card

  /** Discarding the current card puts the waiting one, ready or in the making, into its place as it
      is, and leaves nothing waiting. */
  lemma DiscardKeepsWaiting(l: Ledger)
    ensures Discard(l).next == None
    ensures l.next.Some? && (Ready(l.next.value) || Pending(l.next.value)) ==> Discard(l).cur == l.next.value
    ensures l.next.None? || !(Ready(l.next.value) || Pending(l.next.value)) ==> Discard(l).cur == BLANK
  {
  }

  /** A card is still good when it is ready and has payments left. */
  predicate Good(s: Slot) {
    s.no != "" && s.code != "" && s.paid < MaxPays(s.amount)
  }

  /** A checkout uses the current card while it is good, then the waiting one, and else none; the
      card handed out is counted once more, in payments and in uses, and the other is untouched. */
  lemma CheckoutUses(l: Ledger)
    ensures var (after, card) := Reserve(l);
      && (card.None? <==> !Good(l.cur) && (l.next.None? || !Good(l.next.value)))
      && (card.None? ==> after == l)
      && (Good(l.cur) ==> card == Some(after.cur) && after.next == l.next && Used(l.cur, after.cur))
      && (card.Some? && !Good(l.cur) ==>
            l.next.Some? && after.cur == l.cur && after.next == card && Used(l.next.value, card.value))
  {
  }

  predicate Used(before: Slot, after: Slot) {
    after.paid == before.paid + 1 && after.inUse == before.inUse + 1
    && after.(paid := before.paid, inUse := before.inUse) == before
  }

  /** A card leaves the ledger in recycling exactly when it has no payments left and nobody uses it;
      the waiting card then moves up. */
  lemma RecycleDropsUsedUp(l: Ledger)
    ensures var gone := Ready(l.cur) && !Good(l.cur) && l.cur.inUse == 0;
      var nextGone := l.next.Some? && Ready(l.next.value) && !Good(l.next.value) && l.next.value.inUse == 0;
      && (!gone ==> Recycle(l).cur == l.cur && Recycle(l).next == if nextGone then None else l.next)
      && (gone && l.next.Some? && !nextGone ==> Recycle(l) == Ledger(l.next.value, None))
      && (gone && (l.next.None? || nextGone) ==> Recycle(l) == EMPTY)
  {
  }

  /** A use that ends is given back; its payment is too, unless it succeeded or was refused. */
  lemma ReturnedGivesBack(s: Slot, success: bool, rejected: bool)
    requires 0 < s.inUse <= s.paid
    ensures var r := Returned(s, success, rejected);
      && r.inUse == s.inUse - 1 && r.paid == (if success || rejected then s.paid else s.paid - 1)
      && r.(inUse := s.inUse, paid := s.paid) == s
  {
  }

  /** The key of a release fits a slot: the last four digits of its number, or any card without a key. */
  predicate FitsKey(s: Slot, key: string) {
    if key == "" then s.no != "" && s.code != "" else Last4(s.no) == key
  }

  /** A release goes to the current card if the key fits it, else to the waiting one, else nowhere, and
      what is used up then makes room. */
  lemma ReleaseGoesTo(l: Ledger, key: string, success: bool, rejected: bool)
    ensures var after := Release(l, key, success, rejected);
      && (FitsKey(l.cur, key) ==> after == Recycle(l.(cur := Returned(l.cur, success, rejected))))
      && (!FitsKey(l.cur, key) && l.next.Some? && FitsKey(l.next.value, key) ==>
            after == Recycle(l.(next := Some(Returned(l.next.value, success, rejected)))))
      && (!FitsKey(l.cur, key) && (l.next.None? || !FitsKey(l.next.value, key)) ==> after == l)
  {
  }

  /** A failed creation takes away only the slot that was waiting for its own task, never a card that
      is ready. */
  lemma FailKeepsCards(l: Ledger, task: string, asNext: bool)
    ensures var f := Fail(l, task, asNext);
      && (f.cur != l.cur ==> !asNext && l.cur.task == task && !Ready(l.cur) && f.cur == BLANK)
      && (f.next != l.next ==>
            asNext && l.next.Some? && l.next.value.task == task && !Ready(l.next.value) && f.next == None)
      && (!asNext && l.cur.task == task && !Ready(l.cur) ==> f.cur == BLANK)
      && (asNext && l.next.Some? && l.next.value.task == task && !Ready(l.next.value) ==> f.next == None)
  {
  }

  /** Beginning a card never drops one that is good or in use, never begins one while another is good
      or freshly in the making, and otherwise begins one in the free slot if a task is at hand. */
  lemma BeginKeepsCards(l: Ledger, submitted: Option<(string, string)>, amount: real, now: int)
    ensures var (after, begun) := Begin(l, submitted, amount, now);
      && (begun.Nothing? <==>
            Good(l.cur) || (!Fresh(l.cur, now) && l.next.Some? && Good(l.next.value)))
      && (Good(l.cur) || (Ready(l.cur) && l.cur.inUse > 0) ==> after.cur == l.cur)
      && (l.next.Some? && Good(l.next.value) ==>
            after.next == l.next || (after.cur == l.next.value && Exhausted(l.cur)))
      && (begun.Nothing? || Fresh(l.cur, now) || (l.next.Some? && Fresh(l.next.value, now)) ==> after == l)
  {
  }

  /** When no card is good and none freshly in the making, a new task goes into the current slot, or
      into the waiting one while the used-up current card is still in use; without a task it is
      refused. */
  lemma BeginStartsTask(l: Ledger, submitted: Option<(string, string)>, amount: real, now: int)
    requires !Good(l.cur) && !Fresh(l.cur, now)
    requires l.next.Some? ==> !Good(l.next.value) && !Fresh(l.next.value, now)
    ensures var (after, begun) := Begin(l, submitted, amount, now);
      var busy := Ready(l.cur) && l.cur.inUse != 0;
      && (begun.Refused? <==> submitted.None?)
      && (submitted.Some? ==>
            var (task, ram) := submitted.value;
            var slot := Slot("", "", task, ram, now, amount, 0, 0);
            && begun == Running(busy, task, ram)
            && (busy ==> after.cur == l.cur && after.next == if task != "" && ram != "" then Some(slot) else None)
            && (!busy ==> after.cur == slot))
  {
  }

  // ---------------------------------------------------------------- counters in range

  ghost predicate SlotSound(s: Slot) {
    if Ready(s) then 0 <= s.inUse <= s.paid <= MaxPays(s.amount) else s.no == "" && s.inUse == 0 && s.paid == 0
  }

  /** Ready cards are used at most as often as their amount allows, and never more uses are
      under way than were counted; other slots count nothing. */
  ghost predicate Sound(l: Ledger) {
    SlotSound(l.cur) && (l.next.Some? ==> SlotSound(l.next.value))
  }

  /** The ledger with the open uses of each card number: `out` holds a number once per use not yet released. */
  datatype World = World(ledger: Ledger, out: multiset<string>)

  datatype Step =
    | Checkout
    | Give(no: string, success: bool, rejected: bool)
    | Key(last4: string, success: bool, rejected: bool)
    | Drop
    | Start(submitted: Option<(string, string)>, amount: real, now: int)
    | Done(card: Slot, asNext: bool)
    | Failed(task: string, asNext: bool)

  /** Numbers the ledger or its users know. */
  ghost predicate Known(w: World, no: string) {
    Lists(w.ledger, no) || no in w.out
  }

  predicate Lists(l: Ledger, no: string) {
    (Ready(l.cur) && no == l.cur.no) || (l.next.Some? && Ready(l.next.value) && no == l.next.value.no)
  }

  predicate TwoCards(l: Ledger) {
    Ready(l.cur) && l.next.Some? && Ready(l.next.value) ==> l.cur.no != l.next.value.no
  }

  /** Finishing keeps the counters of the current card, and only of that one. */
  predicate Refreshes(l: Ledger, card: Slot, asNext: bool) {
    !asNext && Ready(l.cur) && l.cur.no == card.no
  }

  predicate Ignored(l: Ledger, card: Slot, asNext: bool) {
    if asNext then l.next.Some? && Ready(l.next.value) && l.next.value.no != card.no
    else Ready(l.cur) && l.cur.no != card.no
  }

  ghost predicate Enabled(w: World, step: Step) {
    match step
    case Give(no, _, _) => no in w.out
    case Done(card, asNext) => Ready(card) && card.paid == 0 && card.inUse == 0
    case _ => true
  }

  /** A card number keeps its amount. */
  predicate KeepsAmount(w: World, step: Step) {
    step.Done? && Refreshes(w.ledger, step.card, step.asNext) ==> step.card.amount == w.ledger.cur.amount
  }

  /** Releases belong to open uses, and a number that is newly installed is told apart by its
      last four digits from every number known. */
  ghost predicate ToldApart(w: World, step: Step) {
    match step
    case Key(_, _, _) => false
    case Done(card, asNext) =>
      !Refreshes(w.ledger, card, asNext) && !Ignored(w.ledger, card, asNext) ==>
        Last4(card.no) != "" && forall no :: Known(w, no) ==> Last4(no) != Last4(card.no)
    case _ => true
  }

  ghost function Apply(w: World, step: Step): World
    requires Enabled(w, step)
  {
    match step
    case Checkout =>
      var (l, card) := Reserve(w.ledger);
      World(l, if card.Some? then w.out + multiset{card.value.no} else w.out)
    case Give(no, success, rejected) =>
      World(Release(w.ledger, Last4(no), success, rejected), w.out - multiset{no})
    case Key(last4, success, rejected) => w.(ledger := Release(w.ledger, last4, success, rejected))
    case Drop => w.(ledger := Discard(w.ledger))
    case Start(submitted, amount, now) => w.(ledger := Begin(w.ledger, submitted, amount, now).0)
    case Done(card, asNext) => w.(ledger := Finish(w.ledger, card, asNext))
    case Failed(task, asNext) => w.(ledger := Fail(w.ledger, task, asNext))
  }

  lemma RecycleKeepsSound(l: Ledger)
    requires Sound(l)
    ensures Sound(Recycle(l))
  {
  }

  lemma ReturnedIsSound(s: Slot, success: bool, rejected: bool)
    requires SlotSound(s)
    ensures SlotSound(Returned(s, success, rejected))
  {
  }

  /** Whatever key a release names, also none, the counters stay in range. */
  lemma ReleaseKeepsSound(l: Ledger, last4: string, success: bool, rejected: bool)
    requires Sound(l)
    ensures Sound(Release(l, last4, success, rejected))
  {
    ReturnedIsSound(l.cur, success, rejected);
    if Hits(l.cur, last4) {
      RecycleKeepsSound(l.(cur := Returned(l.cur, success, rejected)));
    } else if l.next.Some? && Hits(l.next.value, last4) {
      ReturnedIsSound(l.next.value, success, rejected);
      RecycleKeepsSound(l.(next := Some(Returned(l.next.value, success, rejected))));
    }
  }

  /** Finishing a card breaks the range exactly when it reports a smaller amount for the current
      card than the payments already counted on it. */
  lemma FinishKeepsSound(l: Ledger, card: Slot, asNext: bool)
    requires Sound(l) && Ready(card) && card.paid == 0 && card.inUse == 0
    ensures Sound(Finish(l, card, asNext)) <==> !(Refreshes(l, card, asNext) && l.cur.paid > MaxPays(card.amount))
  {
  }

  lemma StepKeepsSound(w: World, step: Step)
    requires Sound(w.ledger) && Enabled(w, step) && KeepsAmount(w, step)
    ensures Sound(Apply(w, step).ledger)
  {
    match step
    case Give(no, success, rejected) => ReleaseKeepsSound(w.ledger, Last4(no), success, rejected);
    case Key(last4, success, rejected) => ReleaseKeepsSound(w.ledger, last4, success, rejected);
    case Done(card, asNext) => FinishKeepsSound(w.ledger, card, asNext);
    case _ =>
  }

  // ---------------------------------------------------------------- runs

  ghost predicate Runs(run: seq<Step>)
    decreases |run|, 0
  {
    run != [] ==> Runs(run[..|run| - 1]) && Enabled(After(run[..|run| - 1]), run[|run| - 1])
  }

  ghost function After(run: seq<Step>): World
    requires Runs(run)
    decreases |run|, 1
  {
    if run == [] then World(EMPTY, multiset{}) else Apply(After(run[..|run| - 1]), run[|run| - 1])
  }

  ghost predicate AmountsKept(run: seq<Step>)
    requires Runs(run)
    decreases |run|
  {
    run != [] ==> AmountsKept(run[..|run| - 1]) && KeepsAmount(After(run[..|run| - 1]), run[|run| - 1])
  }

  ghost predicate NumbersToldApart(run: seq<Step>)
    requires Runs(run)
    decreases |run|
  {
    run != [] ==> NumbersToldApart(run[..|run| - 1]) && ToldApart(After(run[..|run| - 1]), run[|run| - 1])
  }

  /** Through every interleaving of checkouts, releases with any key, discards and card
      creations, the counters stay in range as long as a card number keeps its amount. */
  lemma {:induction false} AlwaysSound(run: seq<Step>)
    requires Runs(run) && AmountsKept(run)
    ensures Sound(After(run).ledger)
    decreases |run|
  {
    if run != [] {
      AlwaysSound(run[..|run| - 1]);
      StepKeepsSound(After(run[..|run| - 1]), run[|run| - 1]);
    }
  }

  // ---------------------------------------------------------------- open uses

  ghost predicate SlotCounted(s: Slot, out: multiset<string>) {
    Ready(s) ==> s.inUse == out[s.no]
  }

  /** Each card in the ledger counts exactly its open uses. */
  ghost predicate Counted(l: Ledger, out: multiset<string>) {
    SlotCounted(l.cur, out) && (l.next.Some? ==> SlotCounted(l.next.value, out))
  }

  /** Numbers are told apart by their last four digits. */
  ghost predicate Apart(w: World) {
    && (forall a, b :: Known(w, a) && Known(w, b) && Last4(a) == Last4(b) ==> a == b)
    && (forall a :: Known(w, a) ==> Last4(a) != "")
    && TwoCards(w.ledger)
  }

  lemma CheckoutKeepsCounted(w: World)
    requires Sound(w.ledger) && Counted(w.ledger, w.out) && Apart(w)
    ensures var v := Apply(w, Checkout);
      Counted(v.ledger, v.out) && forall no :: Known(v, no) ==> Known(w, no)
  {
  }

  lemma ReturnedIsCounted(s: Slot, out: multiset<string>, success: bool, rejected: bool)
    requires SlotCounted(s, out) && Ready(s) && s.no in out
    ensures SlotCounted(Returned(s, success, rejected), out - multiset{s.no})
  {
  }

  lemma OtherIsCounted(s: Slot, out: multiset<string>, no: string)
    requires SlotCounted(s, out) && (Ready(s) ==> s.no != no)
    ensures SlotCounted(s, out - multiset{no})
  {
  }

  lemma RecycleKeepsCounted(l: Ledger, out: multiset<string>)
    requires Counted(l, out)
    ensures Counted(Recycle(l), out)
  {
  }

  lemma HitsItsNumber(w: World, s: Slot, no: string)
    requires Apart(w) && no in w.out && (s == w.ledger.cur || Some(s) == w.ledger.next) && SlotSound(s)
    ensures Hits(s, Last4(no)) <==> Ready(s) && s.no == no
  {
  }

  lemma GiveKeepsCounted(w: World, no: string, success: bool, rejected: bool)
    requires Sound(w.ledger) && Counted(w.ledger, w.out) && Apart(w) && no in w.out
    ensures Counted(Release(w.ledger, Last4(no), success, rejected), w.out - multiset{no})
  {
    var l := w.ledger;
    HitsItsNumber(w, l.cur, no);
    if l.next.Some? {
      HitsItsNumber(w, l.next.value, no);
    }
    if Hits(l.cur, Last4(no)) {
      ReturnedIsCounted(l.cur, w.out, success, rejected);
      if l.next.Some? {
        OtherIsCounted(l.next.value, w.out, no);
      }
      RecycleKeepsCounted(l.(cur := Returned(l.cur, success, rejected)), w.out - multiset{no});
    } else {
      OtherIsCounted(l.cur, w.out, no);
      if l.next.Some? && Hits(l.next.value, Last4(no)) {
        ReturnedIsCounted(l.next.value, w.out, success, rejected);
        RecycleKeepsCounted(l.(next := Some(Returned(l.next.value, success, rejected))), w.out - multiset{no});
      } else if l.next.Some? {
        OtherIsCounted(l.next.value, w.out, no);
      }
    }
  }

  /** Finishing keeps the open uses counted exactly when it does not install, with fresh
      counters, a number that still has open uses: finishing the waiting card a second time
      forgets them. */
  lemma FinishKeepsCounted(l: Ledger, out: multiset<string>, card: Slot, asNext: bool)
    requires Sound(l) && Counted(l, out) && Ready(card) && card.paid == 0 && card.inUse == 0
    ensures Counted(Finish(l, card, asNext), out) <==>
            Ignored(l, card, asNext) || Refreshes(l, card, asNext) || out[card.no] == 0
  {
  }

  lemma StepKeepsCounted(w: World, step: Step)
    requires Sound(w.ledger) && Counted(w.ledger, w.out) && Apart(w) && Enabled(w, step) && ToldApart(w, step)
    ensures Counted(Apply(w, step).ledger, Apply(w, step).out)
  {
    match step
    case Checkout => CheckoutKeepsCounted(w);
    case Give(no, success, rejected) => GiveKeepsCounted(w, no, success, rejected);
    case Done(card, asNext) =>
      FinishKeepsCounted(w.ledger, w.out, card, asNext);
      if card.no in w.out {
        assert Known(w, card.no);
      }
    case _ =>
  }

  /** Which slots may hold cards after a step: the ones that did, possibly moved or dropped. */
  ghost predicate NoNewNumbers(w: World, v: World) {
    (forall no :: Known(v, no) ==> Known(w, no)) && TwoCards(v.ledger)
  }

  lemma NoNewNumbersApart(w: World, v: World)
    requires Apart(w) && NoNewNumbers(w, v)
    ensures Apart(v)
  {
  }

  lemma RecycleAddsNoCards(l: Ledger, no: string)
    ensures Lists(Recycle(l), no) ==> Lists(l, no)
    ensures TwoCards(l) ==> TwoCards(Recycle(l))
  {
  }

  lemma ReturnedIsSameCard(s: Slot, success: bool, rejected: bool)
    ensures Returned(s, success, rejected).no == s.no && (Ready(Returned(s, success, rejected)) <==> Ready(s))
  {
  }

  lemma ReleaseAddsNoCards(l: Ledger, key: string, success: bool, rejected: bool, no: string)
    ensures Lists(Release(l, key, success, rejected), no) ==> Lists(l, no)
    ensures TwoCards(l) ==> TwoCards(Release(l, key, success, rejected))
  {
    ReturnedIsSameCard(l.cur, success, rejected);
    if Hits(l.cur, key) {
      RecycleAddsNoCards(l.(cur := Returned(l.cur, success, rejected)), no);
    } else if l.next.Some? && Hits(l.next.value, key) {
      ReturnedIsSameCard(l.next.value, success, rejected);
      RecycleAddsNoCards(l.(next := Some(Returned(l.next.value, success, rejected))), no);
    }
  }

  lemma GiveAddsNoNumbers(w: World, no: string, success: bool, rejected: bool)
    requires Sound(w.ledger) && Apart(w) && no in w.out
    ensures NoNewNumbers(w, Apply(w, Give(no, success, rejected)))
  {
    var v := Apply(w, Give(no, success, rejected));
    ReleaseAddsNoCards(w.ledger, Last4(no), success, rejected, no);
    forall other | Known(v, other) ensures Known(w, other) {
      ReleaseAddsNoCards(w.ledger, Last4(no), success, rejected, other);
    }
  }

  lemma DoneKeepsApart(w: World, card: Slot, asNext: bool)
    requires Apart(w) && Enabled(w, Done(card, asNext)) && ToldApart(w, Done(card, asNext))
    ensures Apart(Apply(w, Done(card, asNext)))
  {
  }

  lemma StepKeepsApart(w: World, step: Step)
    requires Sound(w.ledger) && Apart(w) && Enabled(w, step) && ToldApart(w, step)
    ensures Apart(Apply(w, step))
  {
    match step
    case Done(card, asNext) => DoneKeepsApart(w, card, asNext);
    case Give(no, success, rejected) =>
      GiveAddsNoNumbers(w, no, success, rejected);
      NoNewNumbersApart(w, Apply(w, step));
    case Key(_, _, _) =>
    case _ => NoNewNumbersApart(w, Apply(w, step));
  }

  /** Through every such interleaving each card in the ledger counts exactly its open uses. */
  lemma {:induction false} AlwaysCounted(run: seq<Step>)
    requires Runs(run) && AmountsKept(run) && NumbersToldApart(run)
    ensures Counted(After(run).ledger, After(run).out) && Apart(After(run))
    decreases |run|
  {
    if run != [] {
      var front := run[..|run| - 1];
      AlwaysCounted(front);
      AlwaysSound(front);
      StepKeepsCounted(After(front), run[|run| - 1]);
      StepKeepsApart(After(front), run[|run| - 1]);
    }
  }

  /** With every use released, a card in the ledger has none under way. */
  lemma NoOpenUses(run: seq<Step>)
    requires Runs(run) && AmountsKept(run) && NumbersToldApart(run) && After(run).out == multiset{}
    ensures After(run).ledger.cur.inUse == 0
    ensures After(run).ledger.next.Some? ==> After(run).ledger.next.value.inUse == 0
  {
    AlwaysSound(run);
    AlwaysCounted(run);
  }

  // ---------------------------------------------------------------- where the count is lost

  ghost predicate Reaches(run: seq<Step>, w: World) {
    Runs(run) && AmountsKept(run) && After(run) == w
  }

  lemma Extended(run: seq<Step>, w: World, step: Step, next: World)
    requires Reaches(run, w) && Enabled(w, step) && KeepsAmount(w, step) && Apply(w, step) == next
    ensures Reaches(run + [step], next)
  {
    assert (run + [step])[..|run|] == run;
  }

  lemma ThreeUses(run: seq<Step>, a: Slot) returns (run': seq<Step>)
    requires Ready(a) && a.paid == a.inUse == 0 && MaxPays(a.amount) == 3
    requires Reaches(run, World(Ledger(a, None), multiset{}))
    ensures Reaches(run', World(Ledger(a.(paid := 3, inUse := 3), None), multiset{a.no, a.no, a.no}))
  {
    var one := World(Ledger(Taken(a), None), multiset{a.no});
    var two := World(Ledger(Taken(Taken(a)), None), multiset{a.no, a.no});
    var three := World(Ledger(a.(paid := 3, inUse := 3), None), multiset{a.no, a.no, a.no});
    Extended(run, World(Ledger(a, None), multiset{}), Checkout, one);
    Extended(run + [Checkout], one, Checkout, two);
    assert two.out + multiset{a.no} == three.out;
    Extended(run + [Checkout] + [Checkout], two, Checkout, three);
    run' := run + [Checkout] + [Checkout] + [Checkout];
  }

  /** A run into the failure: a card that pays three times is used up, the waiting card is put
      into use, and finishing the waiting card once more forgets that use. */
  lemma FinishingTwiceForgets(a: Slot, b: Slot) returns (run: seq<Step>)
    requires Ready(a) && Ready(b) && a.no != b.no && a.paid == b.paid == a.inUse == b.inUse == 0
    requires MaxPays(a.amount) == 3
    ensures Runs(run) && AmountsKept(run) && After(run).out[b.no] == 1
    ensures !Counted(After(run).ledger, After(run).out)
  {
    var used := a.(paid := 3, inUse := 3);
    var out := multiset{a.no, a.no, a.no};
    Extended([], World(EMPTY, multiset{}), Done(a, false), World(Ledger(a, None), multiset{}));
    run := ThreeUses([] + [Done(a, false)], a);
    run := TwiceFinished(run, used, out, b);
  }

  /** The waiting card put into use while the current one is used up, and finished once more. */
  lemma TwiceFinished(run: seq<Step>, used: Slot, out: multiset<string>, b: Slot) returns (run': seq<Step>)
    requires Ready(used) && Exhausted(used) && Ready(b) && used.no != b.no && b.paid == b.inUse == 0
    requires Reaches(run, World(Ledger(used, None), out))
    ensures Reaches(run', World(Ledger(used, Some(b)), out + multiset{b.no}))
  {
    var waiting := World(Ledger(used, Some(b)), out);
    var inUse := World(Ledger(used, Some(Taken(b))), out + multiset{b.no});
    Extended(run, World(Ledger(used, None), out), Done(b, true), waiting);
    Extended(run + [Done(b, true)], waiting, Checkout, inUse);
    Extended(run + [Done(b, true)] + [Checkout], inUse, Done(b, true), World(Ledger(used, Some(b)), out + multiset{b.no}));
    run' := run + [Done(b, true)] + [Checkout] + [Done(b, true)];
  }
}

/** Reading a list of results page by page from another server, and the pages it serves. */
module Transfer {
  import Strings

  const MAX_PAGES := 1000
  const PAGE_SIZE := 100
  const SIZE_CAP := 500

  datatype Account = Account(id: string, batchId: string, paidAt: int, apiKey: string, cookie: string)

  datatype Page = Page(items: seq<Account>, total: int, page: int, pageSize: int)

  datatype Reply = Failed | Got(page: Page)

  datatype Error = Unreachable | InvalidPaging | Changed | Incomplete | ForeignBatch | InvalidAccount | TooMany

  datatype Result<T> = Ok(value: T) | Err(error: Error)

  /** How a server answers, page by page. */
  type Server = nat -> Reply

  function Min(a: int, b: int): int {
    if a < b then a else b
  }

  function Ids(accounts: seq<Account>): set<string> {
    set a | a in accounts :: a.id
  }

  // ---------------------------------------------------------------- the reader

  function Admit(accounts: seq<Account>, items: seq<Account>, batch: string, i: nat): Result<seq<Account>>
    requires i <= |items|
    decreases |items| - i
  {
    if i == |items| then Ok(accounts)
    else if batch != "" && items[i].batchId != batch then Err(ForeignBatch)
    else if items[i].id == "" || items[i].id in Ids(accounts) then Err(InvalidAccount)
    else Admit(accounts + [items[i]], items, batch, i + 1)
  }

  /** What has been read before a page; `total` is negative before the first. */
  datatype Progress = Progress(total: int, size: int, accounts: seq<Account>)

  /** A page whose numbers fit what was asked for and what earlier pages announced. */
  function Check(reply: Reply, page: nat, p: Progress): Result<Page>
    requires page >= 1
  {
    match reply
    case Failed => Err(Unreachable)
    case Got(r) =>
      if r.page != page || r.pageSize <= 0 || r.pageSize > PAGE_SIZE || r.total < 0 || |r.items| > r.pageSize then
        Err(InvalidPaging)
      else if p.total >= 0 && (r.total != p.total || r.pageSize != p.size) then Err(Changed)
      else if |r.items| != Min(r.pageSize, r.total - (page - 1) * r.pageSize) then Err(Incomplete)
      else Ok(r)
  }

  datatype Turn = Stop(error: Error) | Done(accounts: seq<Account>) | More(progress: Progress)

  function Visit(reply: Reply, batch: string, page: nat, p: Progress): Turn
    requires page >= 1
  {
    match Check(reply, page, p)
    case Err(e) => Stop(e)
    case Ok(r) =>
      match Admit(p.accounts, r.items, batch, 0)
      case Err(e) => Stop(e)
      case Ok(all) => Proceed(r, page, all)
  }

  function Proceed(r: Page, page: nat, all: seq<Account>): Turn {
    if page * r.pageSize >= r.total then Done(all)
    else if |r.items| == 0 || page >= MAX_PAGES then Stop(TooMany)
    else More(Progress(r.total, r.pageSize, all))
  }

  function ReadFrom(ask: Server, batch: string, page: nat, p: Progress): Result<seq<Account>>
    requires 1 <= page <= MAX_PAGES
    decreases MAX_PAGES - page
  {
    match Visit(ask(page), batch, page, p)
    case Stop(e) => Err(e)
    case Done(all) => Ok(all)
    case More(next) => if page < MAX_PAGES then ReadFrom(ask, batch, page + 1, next) else Err(TooMany)
  }

  const BEGINNING := Progress(-1, 0, [])

  function Read(ask: Server, batch: string): Result<seq<Account>> {
    ReadFrom(ask, batch, 1, BEGINNING)
  }

  method AdmitPage(accounts: seq<Account>, seen: set<string>, items: seq<Account>, batch: string)
    returns (result: Result<seq<Account>>, seen': set<string>)
    requires seen == Ids(accounts)
    ensures result == Admit(accounts, items, batch, 0)
    ensures result.Ok? ==> seen' == Ids(result.value)
  {
    var all := accounts;
    seen' := seen;
    for i := 0 to |items|
      invariant Admit(all, items, batch, i) == Admit(accounts, items, batch, 0)
      invariant seen' == Ids(all)
    {
      var a := items[i];
      if batch != "" && a.batchId != batch {
        return Err(ForeignBatch), seen';
      }
      if a.id == "" || a.id in seen' {
        return Err(InvalidAccount), seen';
      }
      seen' := seen' + {a.id};
      all := all + [a];
    }
    result := Ok(all);
  }

  method CheckPage(reply: Reply, page: nat, expectedTotal: int, pageSize: int) returns (result: Result<Page>)
    requires page >= 1
    ensures forall accounts :: result == Check(reply, page, Progress(expectedTotal, pageSize, accounts))
  {
    if reply.Failed? {
      return Err(Unreachable);
    }
    var r := reply.page;
    if r.page != page || r.pageSize <= 0 || r.pageSize > PAGE_SIZE || r.total < 0 || |r.items| > r.pageSize {
      return Err(InvalidPaging);
    }
    var total, size := expectedTotal, pageSize;
    if total < 0 {
      total, size := r.total, r.pageSize;
    }
    if r.total != total || r.pageSize != size {
      return Err(Changed);
    }
    var expectedCount := Min(size, total - (page - 1) * size);
    if expectedCount < 0 || |r.items| != expectedCount {
      return Err(Incomplete);
    }
    result := Ok(r);
  }

  method ReadAutoResults(ask: Server, batch: string) returns (result: Result<seq<Account>>)
    ensures result == Read(ask, batch)
  {
    var accounts: seq<Account>, seen: set<string> := [], {};
    var expectedTotal, pageSize, page := -1, 0, 1;
    ghost var whole := Read(ask, batch);
    while true
      invariant 1 <= page <= MAX_PAGES && seen == Ids(accounts)
      invariant Awaits(ask, batch, page, Progress(expectedTotal, pageSize, accounts), whole)
      decreases MAX_PAGES - page
    {
      NextPage(ask, batch, page, Progress(expectedTotal, pageSize, accounts), whole);
      var turn, ids := VisitPage(ask(page), batch, page, expectedTotal, pageSize, accounts, seen);
      match turn {
        case Stop(error) => return Err(error);
        case Done(all) => return Ok(all);
        case More(next) =>
          expectedTotal, pageSize, accounts, seen := next.total, next.size, next.accounts, ids;
          page := page + 1;
      }
    }
  }

  /** Reading on from a page gives the whole result. */
  ghost predicate Awaits(ask: Server, batch: string, page: nat, p: Progress, whole: Result<seq<Account>>)
    requires 1 <= page <= MAX_PAGES
  {
    ReadFrom(ask, batch, page, p) == whole
  }

  lemma NextPage(ask: Server, batch: string, page: nat, p: Progress, whole: Result<seq<Account>>)
    requires 1 <= page <= MAX_PAGES && Awaits(ask, batch, page, p, whole)
    ensures match Visit(ask(page), batch, page, p)
      case Stop(error) => whole == Err(error)
      case Done(all) => whole == Ok(all)
      case More(next) => page < MAX_PAGES && Awaits(ask, batch, page + 1, next, whole)
  {
  }

  /** One page: checked, its items admitted, and the end of the list looked for. */
  method VisitPage(
    reply: Reply, batch: string, page: nat, expectedTotal: int, pageSize: int, accounts: seq<Account>, seen: set<string>)
    returns (turn: Turn, ids: set<string>)
    requires 1 <= page <= MAX_PAGES && seen == Ids(accounts)
    ensures turn == Visit(reply, batch, page, Progress(expectedTotal, pageSize, accounts))
    ensures turn.More? ==> ids == Ids(turn.progress.accounts) && page < MAX_PAGES
  {
    ids := seen;
    var checked := CheckPage(reply, page, expectedTotal, pageSize);
    if checked.Err? {
      return Stop(checked.error), ids;
    }
    var r := checked.value;
    var admitted;
    admitted, ids := AdmitPage(accounts, seen, r.items, batch);
    if admitted.Err? {
      return Stop(admitted.error), ids;
    }
    if page * r.pageSize >= r.total {
      return Done(admitted.value), ids;
    }
    if |r.items| == 0 || page >= MAX_PAGES {
      return Stop(TooMany), ids;
    }
    turn := More(Progress(r.total, r.pageSize, admitted.value));
  }

  // ---------------------------------------------------------------- the server

  predicate EligibleResult(a: Account) {
    a.paidAt > 0 && Strings.Trim(a.apiKey) != "" && Strings.Trim(a.cookie) != ""
  }

  function Eligible(list: seq<Account>): seq<Account>
    decreases |list|
  {
    if list == [] then []
    else
      var front, last := Eligible(list[..|list| - 1]), list[|list| - 1];
      if EligibleResult(last) then front + [last] else front
  }

  /** One page of the list; page and size are what the query held, 0 when it was no number. */
  method ListResults(list: seq<Account>, pageQuery: int, sizeQuery: int) returns (r: Page)
    ensures r == Served(list, pageQuery, sizeQuery)
    ensures r.page == (if pageQuery >= 1 then pageQuery else 1) && r.total == |Eligible(list)|
    ensures r.pageSize == if 1 <= sizeQuery <= 500 then sizeQuery else 100
  {
    var eligible := [];
    for i := 0 to |list|
      invariant eligible == Eligible(list[..i])
    {
      assert list[..i + 1][..i] == list[..i];
      if EligibleResult(list[i]) {
        eligible := eligible + [list[i]];
      }
    }
    assert list[..|list|] == list;
    var page, size := pageQuery, sizeQuery;
    if page < 1 {
      page := 1;
    }
    if size < 1 || size > SIZE_CAP {
      size := PAGE_SIZE;
    }
    var start := |eligible|;
    if page <= |eligible| / size + 1 {
      PageStarts(page, size);
      start := Min((page - 1) * size, |eligible|);
    }
    var end := Min(start + size, |eligible|);
    SlicePage(eligible, page, size);
    return Page(eligible[start..end], |eligible|, page, size);
  }

  lemma PageStarts(page: int, size: int)
    requires page >= 1 && size >= 1
    ensures (page - 1) * size >= 0
  {
  }

  /** The k-th slice of a list, empty beyond its end. */
  function Slice(list: seq<Account>, page: int, size: int): seq<Account>
    requires page >= 1 && size >= 1
  {
    PageStarts(page, size);
    var start := Min((page - 1) * size, |list|);
    list[start..Min(start + size, |list|)]
  }

  /** The accounts listed are exactly those that are paid for and have a key and a cookie, in order. */
  lemma EligibleSnoc(list: seq<Account>, a: Account)
    ensures Eligible([]) == []
    ensures Eligible(list + [a])
      == Eligible(list) + if a.paidAt > 0 && Strings.Trim(a.apiKey) != "" && Strings.Trim(a.cookie) != "" then [a] else []
  {
    assert (list + [a])[..|list|] == list;
  }

  /** A page holds the accounts at its own positions of the list. */
  lemma SliceIs(list: seq<Account>, page: int, size: int, k: nat)
    requires page >= 1 && size >= 1
    ensures (page - 1) * size >= 0
    ensures k < size ==> (k < |Slice(list, page, size)| <==> (page - 1) * size + k < |list|)
    ensures |Slice(list, page, size)| <= size
    ensures k < |Slice(list, page, size)| ==> Slice(list, page, size)[k] == list[(page - 1) * size + k]
  {
    PageStarts(page, size);
  }

  /** The guard against large page numbers changes nothing but the arithmetic. */
  lemma SlicePage(list: seq<Account>, page: int, size: int)
    requires page >= 1 && size >= 1
    ensures page > |list| / size + 1 ==> (page - 1) * size >= |list|
  {
    if page > |list| / size + 1 {
      QuotientBelow(|list|, size);
      TimesGrows(|list| / size + 1, page - 1, size);
    }
  }

  lemma QuotientBelow(n: int, size: int)
    requires size >= 1
    ensures n < (n / size + 1) * size
  {
    var q := n / size;
    assert n == q * size + n % size;
    assert (q + 1) * size == q * size + size;
  }

  lemma TimesGrows(a: int, b: int, size: int)
    requires a <= b && size >= 1
    ensures a * size <= b * size
  {
    assert (b - a) * size >= 0;
    assert b * size == a * size + (b - a) * size;
  }

  function Served(list: seq<Account>, pageQuery: int, sizeQuery: int): Page {
    var page := if pageQuery < 1 then 1 else pageQuery;
    var size := if sizeQuery < 1 || sizeQuery > SIZE_CAP then PAGE_SIZE else sizeQuery;
    Page(Slice(Eligible(list), page, size), |Eligible(list)|, page, size)
  }

  /** A server whose list does not change. */
  function Steady(list: seq<Account>): Server {
    (page: nat) => Got(Served(list, page, PAGE_SIZE))
  }

  // ---------------------------------------------------------------- whatever the server answers

  /** Distinct, non-empty identifiers, and only the batch that was asked for. */
  ghost predicate Good(accounts: seq<Account>, batch: string) {
    && (forall i :: 0 <= i < |accounts| ==> accounts[i].id != "" && (batch != "" ==> accounts[i].batchId == batch))
    && (forall i, j :: 0 <= i < j < |accounts| ==> accounts[i].id != accounts[j].id)
  }

  lemma {:induction false} AdmitKeepsGood(accounts: seq<Account>, items: seq<Account>, batch: string, i: nat)
    requires Good(accounts, batch) && i <= |items| && Admit(accounts, items, batch, i).Ok?
    ensures Admit(accounts, items, batch, i).value == accounts + items[i..]
    ensures Good(accounts + items[i..], batch)
    decreases |items| - i
  {
    if i == |items| {
      assert accounts + items[i..] == accounts;
    } else {
      AdmitKeepsGood(accounts + [items[i]], items, batch, i + 1);
      assert accounts + [items[i]] + items[i + 1..] == accounts + items[i..];
    }
  }

  lemma {:induction false} AdmitsGood(accounts: seq<Account>, items: seq<Account>, batch: string, i: nat)
    requires i <= |items| && Good(accounts + items[i..], batch)
    ensures Admit(accounts, items, batch, i) == Ok(accounts + items[i..])
    decreases |items| - i
  {
    var whole := accounts + items[i..];
    if i == |items| {
      assert whole == accounts;
    } else {
      assert whole[|accounts|] == items[i];
      assert forall k :: 0 <= k < |accounts| ==> whole[k] == accounts[k];
      assert accounts + [items[i]] + items[i + 1..] == whole;
      AdmitsGood(accounts + [items[i]], items, batch, i + 1);
    }
  }

  /** The items of the first `n` pages, one after another. */
  function Joined(ask: Server, n: nat): seq<Account> {
    if n == 0 then [] else Joined(ask, n - 1) + if ask(n).Got? then ask(n).page.items else []
  }

  /** Pages 1 to n all arrived and announced the same total. */
  ghost predicate Announced(ask: Server, n: nat, total: int) {
    forall p: nat :: 1 <= p <= n ==> ask(p).Got? && ask(p).page.total == total && ask(p).page.page == p
  }

  lemma NextStart(page: nat, size: int)
    requires page >= 1
    ensures page * size == (page - 1) * size + size
  {
  }

  /** Where the reader stands before a page. */
  ghost predicate Standing(ask: Server, batch: string, page: nat, p: Progress)
    requires page >= 1
  {
    && Good(p.accounts, batch) && p.accounts == Joined(ask, page - 1) && Announced(ask, page - 1, p.total)
    && (if page == 1 then p.total < 0 && p.accounts == []
        else p.total >= 0 && p.size > 0 && |p.accounts| == (page - 1) * p.size < p.total)
  }

  lemma CheckedPage(reply: Reply, page: nat, p: Progress)
    requires page >= 1 && Check(reply, page, p).Ok?
    ensures var r := Check(reply, page, p).value;
      && reply == Got(r) && r.page == page && r.pageSize > 0 && r.total >= 0
      && (p.total >= 0 ==> r.total == p.total && r.pageSize == p.size)
      && |r.items| == Min(r.pageSize, r.total - (page - 1) * r.pageSize)
  {
  }

  lemma PageCount(page: nat, size: int, total: int, count: int)
    requires page >= 1 && count == Min(size, total - (page - 1) * size)
    ensures page * size >= total ==> (page - 1) * size + count == total
    ensures page * size < total ==> (page - 1) * size + count == page * size
  {
    NextStart(page, size);
  }

  lemma ProceedIsSound(ask: Server, batch: string, page: nat, r: Page, all: seq<Account>)
    requires page >= 1 && r.pageSize > 0 && r.total >= 0 && Good(all, batch) && all == Joined(ask, page)
    requires |r.items| == Min(r.pageSize, r.total - (page - 1) * r.pageSize)
    requires |all| == (page - 1) * r.pageSize + |r.items| && Announced(ask, page, r.total)
    ensures Proceed(r, page, all).Done? ==> Announced(ask, page, |all|)
    ensures Proceed(r, page, all).More? ==> Standing(ask, batch, page + 1, Proceed(r, page, all).progress)
  {
    PageCount(page, r.pageSize, r.total, |r.items|);
  }

  lemma StandingFits(ask: Server, batch: string, page: nat, p: Progress, r: Page)
    requires page >= 1 && Standing(ask, batch, page, p) && ask(page) == Got(r) && r.page == page
    requires p.total >= 0 ==> r.total == p.total && r.pageSize == p.size
    ensures |p.accounts| == (page - 1) * r.pageSize
    ensures Announced(ask, page, r.total)
    ensures Joined(ask, page) == p.accounts + r.items
  {
  }

  /** One page: either the last one, completing what was announced, or one to go on from. */
  lemma VisitIsSound(ask: Server, batch: string, page: nat, p: Progress)
    requires page >= 1 && Standing(ask, batch, page, p)
    ensures var turn := Visit(ask(page), batch, page, p);
      && (turn.Done? ==> turn.accounts == Joined(ask, page) && Good(turn.accounts, batch)
                         && Announced(ask, page, |turn.accounts|))
      && (turn.More? ==> Standing(ask, batch, page + 1, turn.progress))
  {
    if Check(ask(page), page, p).Ok? && Admit(p.accounts, Check(ask(page), page, p).value.items, batch, 0).Ok? {
      var r := Check(ask(page), page, p).value;
      CheckedPage(ask(page), page, p);
      AdmitKeepsGood(p.accounts, r.items, batch, 0);
      assert r.items[0..] == r.items;
      StandingFits(ask, batch, page, p, r);
      ProceedIsSound(ask, batch, page, r, p.accounts + r.items);
    }
  }

  lemma {:induction false} ReadFromIsSound(ask: Server, batch: string, page: nat, p: Progress) returns (n: nat)
    requires 1 <= page <= MAX_PAGES && Standing(ask, batch, page, p)
    requires ReadFrom(ask, batch, page, p).Ok?
    ensures var all := ReadFrom(ask, batch, page, p).value;
      && 1 <= n <= MAX_PAGES && Announced(ask, n, |all|) && all == Joined(ask, n) && Good(all, batch)
    decreases MAX_PAGES - page
  {
    VisitIsSound(ask, batch, page, p);
    var turn := Visit(ask(page), batch, page, p);
    if turn.Done? {
      n := page;
    } else {
      n := ReadFromIsSound(ask, batch, page + 1, turn.progress);
    }
  }

  /** Whatever pages the server answers: accepted accounts are exactly as many as every page
      announced, they are the items of at most 1000 pages in order, and their identifiers are
      distinct and not empty. */
  lemma AcceptedIsSound(ask: Server, batch: string) returns (n: nat)
    requires Read(ask, batch).Ok?
    ensures var all := Read(ask, batch).value;
      && 1 <= n <= 1000 && Announced(ask, n, |all|) && all == Joined(ask, n) && Good(all, batch)
  {
    n := ReadFromIsSound(ask, batch, 1, BEGINNING);
  }

  // ---------------------------------------------------------------- a steady server

  lemma SteadyPage(list: seq<Account>, page: nat)
    requires page >= 1
    ensures Steady(list)(page).Got? && Steady(list)(page).page ==
      Page(Slice(Eligible(list), page, PAGE_SIZE), |Eligible(list)|, page, PAGE_SIZE)
  {
  }

  lemma PrefixThenSlice(all: seq<Account>, page: nat)
    requires page >= 1
    ensures all[..Min((page - 1) * PAGE_SIZE, |all|)] + Slice(all, page, PAGE_SIZE) == all[..Min(page * PAGE_SIZE, |all|)]
  {
  }

  lemma {:induction false} JoinedIsPrefix(list: seq<Account>, n: nat)
    ensures Joined(Steady(list), n) == Eligible(list)[..Min(n * PAGE_SIZE, |Eligible(list)|)]
  {
    if n > 0 {
      JoinedIsPrefix(list, n - 1);
      SteadyPage(list, n);
      PrefixThenSlice(Eligible(list), n);
    }
  }

  /** Before a page of a steady server. */
  ghost predicate Underway(list: seq<Account>, page: nat, p: Progress)
    requires page >= 1
  {
    && (page - 1) * PAGE_SIZE <= |Eligible(list)| && p.accounts == Eligible(list)[..(page - 1) * PAGE_SIZE]
    && (if page == 1 then p.total < 0
        else p.total == |Eligible(list)| && p.size == PAGE_SIZE && (page - 1) * PAGE_SIZE < p.total)
  }

  lemma SteadyIsChecked(list: seq<Account>, page: nat, p: Progress)
    requires 1 <= page && Underway(list, page, p)
    ensures Check(Steady(list)(page), page, p) ==
            Ok(Page(Slice(Eligible(list), page, PAGE_SIZE), |Eligible(list)|, page, PAGE_SIZE))
  {
    SteadyPage(list, page);
  }

  lemma VisitSteady(list: seq<Account>, batch: string, page: nat, p: Progress)
    requires 1 <= page <= MAX_PAGES && Underway(list, page, p)
    requires |Eligible(list)| <= MAX_PAGES * PAGE_SIZE && Good(Eligible(list), batch)
    ensures var turn := Visit(Steady(list)(page), batch, page, p);
      && !turn.Stop?
      && (turn.Done? ==> turn.accounts == Eligible(list))
      && (turn.More? ==> page < MAX_PAGES && Underway(list, page + 1, turn.progress))
  {
    SteadyIsChecked(list, page, p);
    AdmitsSlice(Eligible(list), batch, page);
  }

  lemma AdmitsSlice(all: seq<Account>, batch: string, page: nat)
    requires page >= 1 && (page - 1) * PAGE_SIZE <= |all| && Good(all, batch)
    ensures Admit(all[..(page - 1) * PAGE_SIZE], Slice(all, page, PAGE_SIZE), batch, 0) ==
            Ok(all[..Min(page * PAGE_SIZE, |all|)])
    ensures all[..|all|] == all
  {
    var start, end := (page - 1) * PAGE_SIZE, Min(page * PAGE_SIZE, |all|);
    var items := Slice(all, page, PAGE_SIZE);
    assert all[..start] + items[0..] == all[..end];
    AdmitsGood(all[..start], items, batch, 0);
  }

  lemma {:induction false} ReadsToTheEnd(list: seq<Account>, batch: string, page: nat, p: Progress)
    requires 1 <= page <= MAX_PAGES && Underway(list, page, p)
    requires |Eligible(list)| <= MAX_PAGES * PAGE_SIZE && Good(Eligible(list), batch)
    ensures ReadFrom(Steady(list), batch, page, p) == Ok(Eligible(list))
    decreases MAX_PAGES - page
  {
    VisitSteady(list, batch, page, p);
    var turn := Visit(Steady(list)(page), batch, page, p);
    if turn.More? {
      ReadsToTheEnd(list, batch, page + 1, turn.progress);
    }
  }

  /** Against an unchanged list the transfer either rebuilds exactly that list, in order, or
      fails; and it succeeds if and only if there are at most 100000 accounts, with distinct
      non-empty identifiers, all of the batch that was asked for. */
  lemma SteadyTransfer(list: seq<Account>, batch: string)
    ensures Read(Steady(list), batch).Ok? ==> Read(Steady(list), batch).value == Eligible(list)
    ensures Read(Steady(list), batch).Ok? <==>
            |Eligible(list)| <= 100_000 && Good(Eligible(list), batch)
  {
    if Read(Steady(list), batch).Ok? {
      var n := AcceptedIsSound(Steady(list), batch);
      JoinedIsPrefix(list, n);
      SteadyPage(list, 1);
      assert Read(Steady(list), batch).value == Eligible(list)[..|Eligible(list)|];
    }
    if |Eligible(list)| <= 100_000 && Good(Eligible(list), batch) {
      ReadsToTheEnd(list, batch, 1, BEGINNING);
    }
  }
}

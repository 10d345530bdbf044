/** What importing and exchanging accounts guarantees over whole runs. */
module Exchange {
  import opened Strings
  import opened Credentials

  // ---------------------------------------------------------------- the index of mail addresses

  lemma PutKeepsIndexed(s: Store, a: Account)
    requires Indexed(s)
    requires if a.id in s.accounts then a.email == s.accounts[a.id].email else a.email !in s.emails
    ensures Indexed(Put(s, a))
  {
  }

  /** Identifiers and mail addresses stay unique, as long as new identifiers are new. */
  lemma ImportKeepsIndexed(
    s: Store, source: string, remote: Account, rules: Rules, now: int, newId: string, batch: string)
    requires Indexed(s) && newId !in s.accounts
    ensures Indexed(Import(s, source, remote, rules, now, newId, batch).0)
  {
    var r := Arriving(remote, rules);
    if Accepts(s, source, remote, rules) {
      if Knows(s, r.email) {
        PutKeepsIndexed(s, Merged(ByEmail(s, r.email), r, now));
      } else {
        PutKeepsIndexed(s, Created(r, newId, batch, now));
      }
    }
  }

  lemma ReceiveKeepsIndexed(s: Store, sent: Account, rules: Rules, now: int, newId: string, batch: string)
    requires Indexed(s) && newId !in s.accounts
    ensures Indexed(Receive(s, sent, rules, now, newId, batch).0)
  {
    var r := Receive(s, sent, rules, now, newId, batch).1;
    if r.Received? && Receive(s, sent, rules, now, newId, batch).0 != s {
      PutKeepsIndexed(s, r.account);
    }
  }

  // ---------------------------------------------------------------- what an operation touches

  /** Everything an account is known by elsewhere stays as it was. */
  predicate SameIdentity(a: Account, b: Account) {
    a.id == b.id && a.email == b.email && a.batch == b.batch && a.proxy == b.proxy && a.createdAt == b.createdAt
  }

  /** An import writes at most one account: the one with the result's mail address. If it is
      known it keeps its identity, and no field of it that the result leaves blank is lost. */
  lemma ImportTouchesOneAccount(
    s: Store, source: string, remote: Account, rules: Rules, now: int, newId: string, batch: string, id: string)
    requires Indexed(s) && newId !in s.accounts && id in s.accounts
    ensures var t, r := Import(s, source, remote, rules, now, newId, batch).0, Arriving(remote, rules);
      && id in t.accounts
      && (s.accounts[id].email != r.email || !Accepts(s, source, remote, rules) ==> t.accounts[id] == s.accounts[id])
      && SameIdentity(t.accounts[id], s.accounts[id])
      && (s.accounts[id].password != "" ==> t.accounts[id].password != "")
      && (s.accounts[id].recovery != "" ==> t.accounts[id].recovery != "")
      && (s.accounts[id].workspace != "" ==> t.accounts[id].workspace != "")
      && (s.accounts[id].user != "" ==> t.accounts[id].user != "")
      && (s.accounts[id].cookies != "" ==> t.accounts[id].cookies != "")
  {
  }

  /** An accepted result leads, through mark and link, to a local account that has its mail
      address, credentials and login time, is ready, and has no error. */
  lemma ImportDelivers(
    s: Store, source: string, remote: Account, rules: Rules, now: int, newId: string, batch: string)
    requires Indexed(s) && newId !in s.accounts && Accepts(s, source, remote, rules)
    ensures var (t, outcome) := Import(s, source, remote, rules, now, newId, batch);
      var k, r := Key(source, remote.id), Arriving(remote, rules);
      && (outcome == Imported <==> r.email !in s.emails) && (outcome == Updated <==> r.email in s.emails)
      && k in t.marks && k in t.links && t.links[k] == t.marks[k].local && t.links[k] in t.accounts
      && var a := t.accounts[t.links[k]];
         && a.email == r.email && a.apiKey == r.apiKey && a.cookie == r.cookie && a.lastLogin == r.lastLogin
         && a.paidAt == r.paidAt && a.status == "ready" && a.error == ""
         && (r.cookies != "" ==> a.cookies == r.cookies) && (r.password != "" ==> a.password == r.password)
  {
  }

  /** A synchronisation writes at most the linked account, and of it only the credentials. */
  lemma SyncTouchesCredentials(s: Store, source: string, remote: Account, rules: Rules, now: int, id: string)
    requires Indexed(s) && id in s.accounts
    ensures var t := Sync(s, source, remote, rules, now);
      && Indexed(t) && t.marks == s.marks && t.links == s.links && t.accounts.Keys == s.accounts.Keys
      && SameIdentity(t.accounts[id], s.accounts[id]) && t.accounts[id].paidAt == s.accounts[id].paidAt
      && t.accounts[id].password == s.accounts[id].password && t.accounts[id].provider == s.accounts[id].provider
      && (Key(source, remote.id) !in s.links || s.links[Key(source, remote.id)] != id ==> t.accounts[id] == s.accounts[id])
  {
    SyncKeepsIndexed(s, source, remote, rules, now);
  }

  lemma SyncKeepsIndexed(s: Store, source: string, remote: Account, rules: Rules, now: int)
    requires Indexed(s)
    ensures Indexed(Sync(s, source, remote, rules, now))
  {
    if Overtaken(s, source, remote, rules) {
      var id := s.links[Key(source, remote.id)];
      RewritingKeepsIndexed(s, id, Sync(s, source, remote, rules, now).accounts[id]);
    }
  }

  lemma RewritingKeepsIndexed(s: Store, id: string, a: Account)
    requires Indexed(s) && id in s.accounts && a.id == id && a.email == s.accounts[id].email
    ensures Indexed(s.(accounts := s.accounts[id := a]))
  {
  }

  // ---------------------------------------------------------------- field by field

  datatype Field = Password | Recovery | Workspace | User | Cookies | Cookie | Key' | Provider

  function Of(a: Account, f: Field): string {
    match f
    case Password => a.password
    case Recovery => a.recovery
    case Workspace => a.workspace
    case User => a.user
    case Cookies => a.cookies
    case Cookie => a.cookie
    case Key' => a.apiKey
    case Provider => a.provider
  }

  /** What arrives: the mail address in lower case, a cookie header made from the cookie list when
      there is none, no proxy, the canonical provider; every other field as it was sent. */
  lemma ArrivingMeans(remote: Account, rules: Rules, f: Field)
    ensures var r := Arriving(remote, rules);
      && r.id == remote.id && r.email == rules.lower(Trim(remote.email)) && r.proxy == ""
      && r.paidAt == remote.paidAt && r.lastLogin == remote.lastLogin && r.updatedAt == remote.updatedAt
      && Of(r, f) == if f == Provider then rules.provider(remote.provider)
                     else if f != Cookie then Of(remote, f)
                     else if Trim(remote.cookie) != "" then Trim(remote.cookie) else rules.header(remote.cookies)
  {
  }

  /** An accepted result brings every field it has to a known account, and leaves alone what it has
      not; a new account is the result itself. */
  lemma ImportBringsFields(
    s: Store, source: string, remote: Account, rules: Rules, now: int, newId: string, batch: string, f: Field)
    requires Indexed(s) && newId !in s.accounts && Accepts(s, source, remote, rules)
    ensures var t, r := Import(s, source, remote, rules, now, newId, batch).0, Arriving(remote, rules);
      && Knows(t, r.email)
      && var a := ByEmail(t, r.email);
         && a.paidAt == r.paidAt && a.lastLogin == r.lastLogin && a.updatedAt == now
         && (!Knows(s, r.email) ==> Of(a, f) == Of(r, f) && a.id == newId && a.batch == batch && a.createdAt == now)
         && (Knows(s, r.email) ==> a.id == ByEmail(s, r.email).id)
         && (Knows(s, r.email) ==>
               Of(a, f) == if Of(r, f) != "" || f == Provider then Of(r, f) else Of(ByEmail(s, r.email), f))
  {
  }

  /** What an account becomes that takes over an upload: the login is the one sent, any other field
      is when it has a value. */
  lemma RenewedFields(before: Account, sent: Account, rules: Rules, now: int, f: Field)
    ensures var a := Renewed(before, sent, rules, now);
      && a.id == before.id && a.lastLogin == sent.lastLogin
      && a.paidAt == (if before.paidAt > 0 then before.paidAt else sent.paidAt)
      && Of(a, f) == if f == Provider then rules.provider(if sent.provider != "" then sent.provider else before.provider)
                     else if f in {Cookies, Cookie, Key'} || Of(sent, f) != "" then Of(sent, f)
                     else Of(before, f)
  {
  }

  /** An upload for a known account changes it, if at all, to one that has taken over what was sent. */
  lemma ReceiveRenews(s: Store, sent: Account, rules: Rules, now: int, newId: string, batch: string)
    requires Indexed(s) && Receive(s, sent, rules, now, newId, batch).1.Received?
    requires Knows(s, rules.lower(Trim(sent.email)))
    ensures var (t, receipt) := Receive(s, sent, rules, now, newId, batch);
      var email := rules.lower(Trim(sent.email));
      && receipt.existed && Knows(t, email) && receipt.account == ByEmail(t, email)
      && (if Trim(ByEmail(s, email).cookie) != "" && sent.lastLogin <= ByEmail(s, email).lastLogin then t == s
          else receipt.account == Renewed(ByEmail(s, email), sent.(email := email, cookie := Trim(sent.cookie)), rules, now))
  {
  }

  /** An upload for an unknown one creates it as it was sent. */
  lemma ReceiveCreates(s: Store, sent: Account, rules: Rules, now: int, newId: string, batch: string, f: Field)
    requires Receive(s, sent, rules, now, newId, batch).1.Received? && !Knows(s, rules.lower(Trim(sent.email)))
    ensures var (t, receipt) := Receive(s, sent, rules, now, newId, batch);
      var email, a := rules.lower(Trim(sent.email)), receipt.account;
      && !receipt.existed && Knows(t, email) && a == ByEmail(t, email)
      && a.id == newId && a.batch == batch && a.lastLogin == sent.lastLogin && a.paidAt == sent.paidAt
      && Of(a, f) == if f == Cookie then Trim(sent.cookie)
                     else if f == Provider then rules.provider(sent.provider)
                     else Of(sent, f)
  {
  }

  /** A synchronisation takes over the login, and workspace and user when the other side knows them;
      every other field stays. */
  lemma SyncBringsFields(s: Store, source: string, remote: Account, rules: Rules, now: int, f: Field)
    requires Overtaken(s, source, remote, rules)
    ensures var id := s.links[Key(source, remote.id)];
      var a := Sync(s, source, remote, rules, now).accounts[id];
      && a.lastLogin == remote.lastLogin && a.error == "" && a.updatedAt == now
      && Of(a, f) == match f
           case Cookies => remote.cookies
           case Cookie => Trim(remote.cookie)
           case Key' => Trim(remote.apiKey)
           case Workspace => if remote.workspace != "" then remote.workspace else s.accounts[id].workspace
           case User => if remote.user != "" then remote.user else s.accounts[id].user
           case _ => Of(s.accounts[id], f)
  {
  }

  /** A result takes part only when it names its source and itself, was paid for, and has a mail
      address, a key and a cookie. */
  lemma ImportableExactly(source: string, remote: Account, rules: Rules)
    ensures Importable(source, Arriving(remote, rules)) <==>
      && source != "" && remote.id != "" && '@' in rules.lower(Trim(remote.email)) && remote.paidAt > 0
      && Trim(remote.apiKey) != "" && (Trim(remote.cookie) != "" || rules.header(remote.cookies) != "")
  {
  }

  /** An upload is refused exactly when it lacks a mail address, a cookie, a key or a payment, and then
      changes nothing. */
  lemma ReceiveRefuses(s: Store, sent: Account, rules: Rules, now: int, newId: string, batch: string)
    ensures var (t, receipt) := Receive(s, sent, rules, now, newId, batch);
      && (receipt.Refused? <==>
            rules.lower(Trim(sent.email)) == "" || Trim(sent.cookie) == "" || Trim(sent.apiKey) == "" || sent.paidAt <= 0)
      && (receipt.Refused? ==> t == s)
  {
  }

  /** A synchronisation changes something only for a linked account with the same mail address and a
      strictly earlier login than the one that comes with a cookie and a key. */
  lemma SyncOnlyWhenLater(s: Store, source: string, remote: Account, rules: Rules, now: int)
    requires Sync(s, source, remote, rules, now) != s
    ensures var k := Key(source, remote.id);
      && k in s.links && s.links[k] in s.accounts && remote.lastLogin > s.accounts[s.links[k]].lastLogin
      && rules.fold(Trim(remote.email), s.accounts[s.links[k]].email)
      && Trim(remote.cookie) != "" && Trim(remote.apiKey) != ""
  {
  }

  /** Two results have the same fingerprint exactly when they agree in every field that an import can
      bring. */
  lemma SamePrintExactly(a: Account, b: Account)
    ensures PrintOf(a) == PrintOf(b) <==>
      a.email == b.email && a.paidAt == b.paidAt && a.lastLogin == b.lastLogin && forall f :: Of(a, f) == Of(b, f)
  {
    if forall f :: Of(a, f) == Of(b, f) {
      assert Of(a, Password) == Of(b, Password) && Of(a, Recovery) == Of(b, Recovery) && Of(a, Workspace) == Of(b, Workspace);
      assert Of(a, User) == Of(b, User) && Of(a, Cookies) == Of(b, Cookies) && Of(a, Cookie) == Of(b, Cookie);
      assert Of(a, Key') == Of(b, Key') && Of(a, Provider) == Of(b, Provider);
    }
  }

  // ---------------------------------------------------------------- redelivery and the watermark

  /** Delivering a result again changes nothing, whatever happened to the local accounts in
      between: a credential edited locally is not overwritten by a result already seen. */
  lemma RedeliveryChangesNothing(
    s: Store, source: string, remote: Account, rules: Rules, now: int, newId: string, batch: string,
    later: Store, now': int, newId': string, batch': string)
    requires var k, t := Key(source, remote.id), Import(s, source, remote, rules, now, newId, batch).0;
      (k in later.marks <==> k in t.marks) && (k in t.marks ==> later.marks[k] == t.marks[k])
    ensures Import(later, source, remote, rules, now', newId', batch') == (later, Skipped)
  {
    var r, k := Arriving(remote, rules), Key(source, remote.id);
    if Accepts(s, source, remote, rules) {
      assert IsUnchanged(later, k, r);
    }
  }

  /** The watermark of a remote account falls exactly when a changed result without an update
      time arrives below it. */
  lemma WatermarkFallsOnlyUntimed(
    s: Store, source: string, remote: Account, rules: Rules, now: int, newId: string, batch: string, k: Key)
    requires k in s.marks
    ensures var t := Import(s, source, remote, rules, now, newId, batch).0;
      && k in t.marks
      && (t.marks[k].updatedAt < s.marks[k].updatedAt <==>
            && k == Key(source, remote.id) && Importable(source, Arriving(remote, rules))
            && !IsUnchanged(s, k, Arriving(remote, rules))
            && remote.updatedAt <= 0 && remote.updatedAt < s.marks[k].updatedAt)
  {
  }

  /** A run of deliveries and of anything else that leaves the import marks alone: local edits,
      uploads, synchronisations, new links. */
  datatype Event =
    | Deliver(source: string, remote: Account, now: int, newId: string, batch: string)
    | Else(accounts: map<string, Account>, emails: map<string, string>, links: map<Key, string>)

  function Happen(s: Store, e: Event, rules: Rules): Store {
    match e
    case Deliver(source, remote, now, newId, batch) => Import(s, source, remote, rules, now, newId, batch).0
    case Else(accounts, emails, links) => Store(accounts, emails, s.marks, links)
  }

  function After(s: Store, run: seq<Event>, rules: Rules): Store
    decreases |run|
  {
    if run == [] then s else Happen(After(s, run[..|run| - 1], rules), run[|run| - 1], rules)
  }

  /** Every result of the remote account carries an update time. */
  ghost predicate Timed(run: seq<Event>, k: Key) {
    forall i :: 0 <= i < |run| && run[i].Deliver? && Key(run[i].source, run[i].remote.id) == k ==> run[i].remote.updatedAt > 0
  }

  lemma EventRaisesMark(s: Store, e: Event, rules: Rules, k: Key, level: int)
    requires k in s.marks && s.marks[k].updatedAt >= level
    requires e.Deliver? && Key(e.source, e.remote.id) == k ==> e.remote.updatedAt > 0
    ensures k in Happen(s, e, rules).marks && Happen(s, e, rules).marks[k].updatedAt >= level
  {
  }

  lemma DeliveryMarks(s: Store, e: Event, rules: Rules)
    requires e.Deliver? && e.remote.updatedAt > 0 && Importable(e.source, Arriving(e.remote, rules))
    ensures var k := Key(e.source, e.remote.id);
      k in Happen(s, e, rules).marks && Happen(s, e, rules).marks[k].updatedAt >= e.remote.updatedAt
  {
  }

  lemma {:induction false} MarkRemembers(s: Store, run: seq<Event>, rules: Rules, k: Key, i: nat)
    requires Timed(run, k) && i < |run| && run[i].Deliver? && Key(run[i].source, run[i].remote.id) == k
    requires Importable(run[i].source, Arriving(run[i].remote, rules))
    ensures k in After(s, run, rules).marks && After(s, run, rules).marks[k].updatedAt >= run[i].remote.updatedAt
    decreases |run|
  {
    var front, last := run[..|run| - 1], run[|run| - 1];
    if i == |run| - 1 {
      DeliveryMarks(After(s, front, rules), last, rules);
    } else {
      assert Timed(front, k) by {
        assert forall j :: 0 <= j < |front| ==> front[j] == run[j];
      }
      MarkRemembers(s, front, rules, k, i);
      EventRaisesMark(After(s, front, rules), last, rules, k, run[i].remote.updatedAt);
    }
  }

  /** A result older than any result delivered before it, accepted or not, changes nothing. */
  lemma OlderChangesNothing(
    s: Store, run: seq<Event>, rules: Rules, i: nat, old': Account, now: int, newId: string, batch: string)
    requires i < |run| && run[i].Deliver? && Importable(run[i].source, Arriving(run[i].remote, rules))
    requires old'.id == run[i].remote.id && Timed(run, Key(run[i].source, old'.id))
    requires 0 < old'.updatedAt < run[i].remote.updatedAt
    ensures var t := After(s, run, rules);
      Import(t, run[i].source, old', rules, now, newId, batch) == (t, Skipped)
  {
    MarkRemembers(s, run, rules, Key(run[i].source, old'.id), i);
  }

  // ---------------------------------------------------------------- login times

  /** Importing lowers the login time of a local account exactly when an accepted result for it
      carries an earlier one. */
  lemma ImportLowersLogin(
    s: Store, source: string, remote: Account, rules: Rules, now: int, newId: string, batch: string, id: string)
    requires Indexed(s) && newId !in s.accounts && id in s.accounts
    ensures var t := Import(s, source, remote, rules, now, newId, batch).0;
      && id in t.accounts
      && (t.accounts[id].lastLogin < s.accounts[id].lastLogin <==>
            && Accepts(s, source, remote, rules) && s.accounts[id].email == Arriving(remote, rules).email
            && remote.lastLogin < s.accounts[id].lastLogin)
  {
  }

  /** An upload lowers a login time exactly when the account there has no cookie to lose. */
  lemma ReceiveLowersLogin(s: Store, sent: Account, rules: Rules, now: int, newId: string, batch: string, id: string)
    requires Indexed(s) && newId !in s.accounts && id in s.accounts
    ensures var (t, receipt) := Receive(s, sent, rules, now, newId, batch);
      && id in t.accounts
      && (t.accounts[id].lastLogin < s.accounts[id].lastLogin <==>
            && receipt.Received? && s.accounts[id].email == rules.lower(Trim(sent.email))
            && Trim(s.accounts[id].cookie) == "" && sent.lastLogin < s.accounts[id].lastLogin)
      && (Trim(s.accounts[id].cookie) != "" ==> Trim(t.accounts[id].cookie) != "")
  {
    TrimTwice(sent.cookie);
  }

  lemma {:induction false} TrimTwice(s: string)
    ensures Trim(Trim(s)) == Trim(s)
    decreases |s|
  {
    if s != [] {
      if IsBlank(s[0]) {
        TrimTwice(s[1..]);
      } else if IsBlank(s[|s| - 1]) {
        TrimTwice(s[..|s| - 1]);
      }
    }
  }

  lemma SyncNeverLowersLogin(s: Store, source: string, remote: Account, rules: Rules, now: int, id: string)
    requires id in s.accounts
    ensures var t := Sync(s, source, remote, rules, now);
      && id in t.accounts && t.accounts[id].lastLogin >= s.accounts[id].lastLogin
      && (Trim(s.accounts[id].cookie) != "" ==> Trim(t.accounts[id].cookie) != "")
  {
    TrimTwice(remote.cookie);
  }

  /** What reaches one server during an exchange: uploads and synchronisations carry snapshots
      that may be arbitrarily old; a new login is later than the last one and has a cookie. */
  datatype Message =
    | Upload(sent: Account, now: int, newId: string, batch: string)
    | Pull(source: string, remote: Account, now: int)
    | Linked(source: string, remoteId: string, local: string)
    | Login(id: string, cookies: string, cookie: string, time: int)

  predicate Possible(s: Store, m: Message) {
    match m
    case Upload(_, _, newId, _) => newId !in s.accounts
    case Login(id, _, cookie, time) => id in s.accounts && Trim(cookie) != "" && time >= s.accounts[id].lastLogin
    case _ => true
  }

  function Handle(s: Store, m: Message, rules: Rules): Store {
    match m
    case Upload(sent, now, newId, batch) => Receive(s, sent, rules, now, newId, batch).0
    case Pull(source, remote, now) => Sync(s, source, remote, rules, now)
    case Linked(source, remoteId, local) => Link(s, source, remoteId, local)
    case Login(id, cookies, cookie, time) =>
      if id in s.accounts then
        s.(accounts := s.accounts[id := s.accounts[id].(cookies := cookies, cookie := cookie, error := "",
                                                        lastLogin := time, updatedAt := time)])
      else s
  }

  ghost predicate Delivers(s: Store, run: seq<Message>, rules: Rules)
    decreases |run|, 0
  {
    run != [] ==>
      Delivers(s, run[..|run| - 1], rules) && Possible(Handled(s, run[..|run| - 1], rules), run[|run| - 1])
  }

  ghost function Handled(s: Store, run: seq<Message>, rules: Rules): Store
    requires Delivers(s, run, rules)
    decreases |run|, 1
  {
    if run == [] then s else Handle(Handled(s, run[..|run| - 1], rules), run[|run| - 1], rules)
  }

  lemma HandleKeepsIndexed(s: Store, m: Message, rules: Rules)
    requires Indexed(s) && Possible(s, m)
    ensures Indexed(Handle(s, m, rules))
  {
    match m
    case Upload(sent, now, newId, batch) => ReceiveKeepsIndexed(s, sent, rules, now, newId, batch);
    case _ =>
  }

  lemma HandleKeepsLogin(s: Store, m: Message, rules: Rules, id: string)
    requires Indexed(s) && Possible(s, m) && id in s.accounts && Trim(s.accounts[id].cookie) != ""
    ensures var t := Handle(s, m, rules);
      id in t.accounts && Trim(t.accounts[id].cookie) != "" && t.accounts[id].lastLogin >= s.accounts[id].lastLogin
  {
    match m
    case Upload(sent, now, newId, batch) => ReceiveLowersLogin(s, sent, rules, now, newId, batch, id);
    case Pull(source, remote, now) => SyncNeverLowersLogin(s, source, remote, rules, now, id);
    case _ =>
  }

  /** Over any interleaving of uploads, synchronisations and new logins, an account that has a
      cookie keeps having one and its login time never decreases. */
  lemma {:induction false} LoginNeverDecreases(s: Store, run: seq<Message>, rules: Rules, id: string)
    requires Indexed(s) && Delivers(s, run, rules) && id in s.accounts && Trim(s.accounts[id].cookie) != ""
    ensures var t := Handled(s, run, rules);
      && Indexed(t) && id in t.accounts && Trim(t.accounts[id].cookie) != ""
      && t.accounts[id].lastLogin >= s.accounts[id].lastLogin
    decreases |run|
  {
    if run != [] {
      var front := run[..|run| - 1];
      LoginNeverDecreases(s, front, rules, id);
      HandleKeepsIndexed(Handled(s, front, rules), run[|run| - 1], rules);
      HandleKeepsLogin(Handled(s, front, rules), run[|run| - 1], rules, id);
    }
  }

  // ---------------------------------------------------------------- convergence

  /** What the exchange is about; blanks around cookie and key do not matter. */
  datatype Secret = Secret(cookies: string, cookie: string, apiKey: string, lastLogin: int)

  function SecretOf(a: Account): Secret {
    Secret(a.cookies, Trim(a.cookie), Trim(a.apiKey), a.lastLogin)
  }

  predicate Usable(a: Account) {
    Trim(a.cookie) != "" && Trim(a.apiKey) != "" && a.paidAt > 0 && a.lastLogin >= 0 && a.id != ""
  }

  /** The two ends of an exchange hold the same account and spell its mail address alike. */
  predicate SamePerson(mine: Account, theirs: Account, rules: Rules) {
    mine.email != "" && theirs.email == rules.lower(Trim(mine.email)) && theirs.email != ""
    && rules.fold(Trim(theirs.email), mine.email)
  }

  /** Upload the local account, link it to what the other side answers, and pull that back. */
  function Swap(
    here: Store, there: Store, source: string, local: string, rules: Rules, now: int, newId: string, batch: string):
    (Store, Store)
    requires local in here.accounts
  {
    var (there', receipt) := Receive(there, here.accounts[local], rules, now, newId, batch);
    match receipt
    case Refused => (here, there')
    case Received(answer, _) => (Sync(Link(here, source, answer.id, local), source, answer, rules, now), there')
  }

  lemma UploadOfOlder(there: Store, sent: Account, rules: Rules, now: int, newId: string, batch: string, email: string)
    requires Usable(sent) && email == rules.lower(Trim(sent.email)) && email != "" && Knows(there, email)
    requires Usable(ByEmail(there, email)) && sent.lastLogin <= ByEmail(there, email).lastLogin
    ensures Receive(there, sent, rules, now, newId, batch) == (there, Received(ByEmail(there, email), true))
  {
    TrimTwice(sent.cookie);
  }

  lemma UploadOfNewer(there: Store, sent: Account, rules: Rules, now: int, newId: string, batch: string, email: string)
    requires Indexed(there) && Usable(sent) && email == rules.lower(Trim(sent.email)) && email != "" && Knows(there, email)
    requires Usable(ByEmail(there, email)) && sent.lastLogin > ByEmail(there, email).lastLogin
    ensures var (there', receipt) := Receive(there, sent, rules, now, newId, batch);
      && Knows(there', email) && receipt == Received(ByEmail(there', email), true)
      && SecretOf(ByEmail(there', email)) == SecretOf(sent)
      && ByEmail(there', email).id == ByEmail(there, email).id
  {
    TrimTwice(sent.cookie);
  }

  lemma PullOfNewer(here: Store, source: string, local: string, answer: Account, rules: Rules, now: int)
    requires local in here.accounts && source != "" && local != "" && Usable(answer) && here.accounts[local].lastLogin >= 0
    requires SamePerson(here.accounts[local], answer, rules)
    ensures var t := Sync(Link(here, source, answer.id, local), source, answer, rules, now);
      && local in t.accounts
      && SecretOf(t.accounts[local]) ==
           if answer.lastLogin > here.accounts[local].lastLogin then SecretOf(answer) else SecretOf(here.accounts[local])
  {
    TrimTwice(answer.cookie);
    TrimTwice(answer.apiKey);
  }

  /** With usable credentials on both sides, an upload followed by the synchronisation back
      leaves both sides with the secret of the later login. Both hold the same secret afterwards
      if and only if the login times differ or they held the same before: between equal times
      each side keeps its own. */
  lemma SwapConverges(
    here: Store, there: Store, source: string, local: string, rules: Rules, now: int, newId: string, batch: string)
    requires Indexed(there) && local in here.accounts && local != "" && source != ""
    requires Knows(there, rules.lower(Trim(here.accounts[local].email)))
    requires var theirs := ByEmail(there, rules.lower(Trim(here.accounts[local].email)));
      SamePerson(here.accounts[local], theirs, rules) && Usable(here.accounts[local]) && Usable(theirs)
    ensures var mine := here.accounts[local];
      var email := rules.lower(Trim(mine.email));
      var theirs := ByEmail(there, email);
      var (here', there') := Swap(here, there, source, local, rules, now, newId, batch);
      && local in here'.accounts && Knows(there', email)
      && var mine', theirs' := SecretOf(here'.accounts[local]), SecretOf(ByEmail(there', email));
         && (mine.lastLogin > theirs.lastLogin ==> mine' == theirs' == SecretOf(mine))
         && (mine.lastLogin < theirs.lastLogin ==> mine' == theirs' == SecretOf(theirs))
         && (mine' == theirs' <==> mine.lastLogin != theirs.lastLogin || SecretOf(mine) == SecretOf(theirs))
  {
    var mine := here.accounts[local];
    var email := rules.lower(Trim(mine.email));
    var theirs := ByEmail(there, email);
    if mine.lastLogin > theirs.lastLogin {
      UploadOfNewer(there, mine, rules, now, newId, batch, email);
      var answer := Receive(there, mine, rules, now, newId, batch).1.account;
      PullOfNewer(here, source, local, answer, rules, now);
    } else {
      UploadOfOlder(there, mine, rules, now, newId, batch, email);
      PullOfNewer(here, source, local, theirs, rules, now);
    }
  }

  /** An account the other side does not know yet is created there with the same secret, and the
      local one keeps its own. */
  lemma SwapIntroduces(
    here: Store, there: Store, source: string, local: string, rules: Rules, now: int, newId: string, batch: string)
    requires local in here.accounts && local != "" && source != "" && newId != "" && newId !in there.accounts
    requires var mine := here.accounts[local];
      var email := rules.lower(Trim(mine.email));
      Usable(mine) && email != "" && !Knows(there, email) && rules.fold(Trim(email), mine.email)
    ensures var mine := here.accounts[local];
      var (here', there') := Swap(here, there, source, local, rules, now, newId, batch);
      && local in here'.accounts && newId in there'.accounts
      && SecretOf(here'.accounts[local]) == SecretOf(there'.accounts[newId]) == SecretOf(mine)
      && Key(source, newId) in here'.links && here'.links[Key(source, newId)] == local
  {
    TrimTwice(here.accounts[local].cookie);
  }
}

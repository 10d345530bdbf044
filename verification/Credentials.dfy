/** Accounts exchanged between two servers: results imported under a watermark, credentials
    uploaded and synchronised back by the time of their login. */
module Credentials {
  import opened Strings

  datatype Account = Account(
    id: string, email: string, password: string, recovery: string, proxy: string, workspace: string,
    apiKey: string, user: string, cookies: string, cookie: string, provider: string, status: string,
    error: string, batch: string, paidAt: int, lastLogin: int, createdAt: int, updatedAt: int)

  /** String rules of the environment: lower case, case-blind equality, the header form of a
      cookie list, and the canonical name of a login provider. */
  datatype Rules = Rules(
    lower: string -> string, fold: (string, string) -> bool, header: string -> string, provider: string -> string)

  /** What a result's fingerprint covers; the hash of the original stands for exactly this. */
  datatype Print = Print(
    email: string, password: string, recovery: string, apiKey: string, workspace: string, user: string,
    cookies: string, cookie: string, provider: string, paidAt: int, lastLogin: int)

  datatype Key = Key(source: string, remote: string)

  /** What is remembered of the last accepted result of a remote account. */
  datatype Mark = Mark(local: string, seen: Print, updatedAt: int)

  datatype Store = Store(
    accounts: map<string, Account>, emails: map<string, string>, marks: map<Key, Mark>, links: map<Key, string>)

  datatype Outcome = Imported | Updated | Skipped

  datatype Receipt = Refused | Received(account: Account, existed: bool)

  /** The index of mail addresses is exact. */
  ghost predicate Indexed(s: Store) {
    && (forall e :: e in s.emails ==> s.emails[e] in s.accounts && s.accounts[s.emails[e]].email == e)
    && (forall id :: id in s.accounts ==>
          s.accounts[id].id == id && s.accounts[id].email in s.emails && s.emails[s.accounts[id].email] == id)
  }

  function Or(s: string, fallback: string): string {
    if s == "" then fallback else s
  }

  predicate Knows(s: Store, email: string) {
    email in s.emails && s.emails[email] in s.accounts
  }

  function ByEmail(s: Store, email: string): Account
    requires Knows(s, email)
  {
    s.accounts[s.emails[email]]
  }

  function Put(s: Store, a: Account): Store {
    s.(accounts := s.accounts[a.id := a], emails := s.emails[a.email := a.id])
  }

  // ---------------------------------------------------------------- importing results

  function Arriving(remote: Account, rules: Rules): Account {
    remote.(email := rules.lower(Trim(remote.email)), cookie := Or(Trim(remote.cookie), rules.header(remote.cookies)),
            proxy := "", provider := rules.provider(remote.provider))
  }

  predicate Importable(source: string, r: Account) {
    source != "" && r.id != "" && '@' in r.email && r.paidAt > 0 && Trim(r.apiKey) != "" && r.cookie != ""
  }

  function PrintOf(r: Account): Print {
    Print(r.email, r.password, r.recovery, r.apiKey, r.workspace, r.user, r.cookies, r.cookie, r.provider,
          r.paidAt, r.lastLogin)
  }

  predicate IsStale(s: Store, k: Key, r: Account) {
    k in s.marks && r.updatedAt > 0 && r.updatedAt < s.marks[k].updatedAt
  }

  predicate IsUnchanged(s: Store, k: Key, r: Account) {
    k in s.marks && s.marks[k].seen == PrintOf(r)
  }

  /** The result takes effect on the local account. */
  predicate Accepts(s: Store, source: string, remote: Account, rules: Rules) {
    var r := Arriving(remote, rules);
    Importable(source, r) && !IsStale(s, Key(source, r.id), r) && !IsUnchanged(s, Key(source, r.id), r)
  }

  /** A known account takes over what the result brings and keeps the rest. */
  function Merged(local: Account, r: Account, now: int): Account {
    local.(password := Or(r.password, local.password), recovery := Or(r.recovery, local.recovery),
           workspace := Or(r.workspace, local.workspace), apiKey := r.apiKey, user := Or(r.user, local.user),
           cookies := Or(r.cookies, local.cookies), cookie := r.cookie, paidAt := r.paidAt, status := "ready",
           error := "", lastLogin := r.lastLogin, updatedAt := now, provider := r.provider)
  }

  function Created(r: Account, newId: string, batch: string, now: int): Account {
    r.(id := newId, batch := batch, status := "ready", error := "", createdAt := now, updatedAt := now)
  }

  function Import(
    s: Store, source: string, remote: Account, rules: Rules, now: int, newId: string, batch: string): (Store, Outcome)
  {
    var r := Arriving(remote, rules);
    var k := Key(source, r.id);
    if !Importable(source, r) || IsStale(s, k, r) then (s, Skipped)
    else if IsUnchanged(s, k, r) then
      (if r.updatedAt > s.marks[k].updatedAt then s.(marks := s.marks[k := s.marks[k].(updatedAt := r.updatedAt)]) else s,
       Skipped)
    else
      var known := Knows(s, r.email);
      var local := if known then Merged(ByEmail(s, r.email), r, now) else Created(r, newId, batch, now);
      (Put(s, local).(marks := s.marks[k := Mark(local.id, PrintOf(r), r.updatedAt)], links := s.links[k := local.id]),
       if known then Updated else Imported)
  }

  // ---------------------------------------------------------------- exchanging credentials

  /** An upload to the automation server. */
  function Receive(
    s: Store, sent: Account, rules: Rules, now: int, newId: string, batch: string): (Store, Receipt)
  {
    var a := sent.(email := rules.lower(Trim(sent.email)), cookie := Trim(sent.cookie));
    if a.email == "" || a.cookie == "" || Trim(a.apiKey) == "" || a.paidAt <= 0 then (s, Refused)
    else if Knows(s, a.email) then
      var old' := ByEmail(s, a.email);
      if Trim(old'.cookie) != "" && a.lastLogin <= old'.lastLogin then (s, Received(old', true))
      else
        var kept := Renewed(old', a, rules, now);
        (Put(s, kept), Received(kept, true))
    else
      var fresh' := a.(id := newId, batch := batch, createdAt := now, proxy := "", provider := rules.provider(a.provider),
                       status := "ready", error := "", updatedAt := now);
      (Put(s, fresh'), Received(fresh', false))
  }

  function Renewed(old': Account, a: Account, rules: Rules, now: int): Account {
    a.(id := old'.id, batch := old'.batch, createdAt := old'.createdAt, proxy := old'.proxy,
       paidAt := if old'.paidAt > 0 then old'.paidAt else a.paidAt,
       password := Or(a.password, old'.password), recovery := Or(a.recovery, old'.recovery),
       workspace := Or(a.workspace, old'.workspace), user := Or(a.user, old'.user),
       provider := rules.provider(Or(a.provider, old'.provider)), status := "ready", error := "", updatedAt := now)
  }

  function Link(s: Store, source: string, remote: string, local: string): Store {
    if source == "" || remote == "" || local == "" then s else s.(links := s.links[Key(source, remote) := local])
  }

  /** A linked account takes over credentials of a later login. */
  predicate Overtaken(s: Store, source: string, remote: Account, rules: Rules) {
    var k := Key(source, remote.id);
    && remote.id != "" && remote.lastLogin > 0 && Trim(remote.cookie) != "" && Trim(remote.apiKey) != ""
    && k in s.links && s.links[k] in s.accounts
    && rules.fold(Trim(remote.email), s.accounts[s.links[k]].email)
    && remote.lastLogin > s.accounts[s.links[k]].lastLogin
  }

  function Sync(s: Store, source: string, remote: Account, rules: Rules, now: int): Store {
    if !Overtaken(s, source, remote, rules) then s
    else
      var local := s.accounts[s.links[Key(source, remote.id)]];
      s.(accounts := s.accounts[s.links[Key(source, remote.id)] := local.(
        cookies := remote.cookies, cookie := Trim(remote.cookie), apiKey := Trim(remote.apiKey),
        workspace := Or(remote.workspace, local.workspace), user := Or(remote.user, local.user), error := "",
        lastLogin := remote.lastLogin, updatedAt := now)])
  }

  // ---------------------------------------------------------------- the tables

  class Tables {
    var accounts: map<string, Account>
    var emails: map<string, string>
    var marks: map<Key, Mark>
    var links: map<Key, string>

    function View(): Store
      reads this
    {
      Store(accounts, emails, marks, links)
    }

    method Save(a: Account)
      modifies `accounts, `emails
      ensures View() == Put(old(View()), a)
    {
      accounts := accounts[a.id := a];
      emails := emails[a.email := a.id];
    }

    /** Blank fields of the result keep the local value; the rest is written over. */
    static method MergeInto(local: Account, result: Account, now: int) returns (merged: Account)
      ensures merged == Merged(local, result, now)
    {
      var remote := result;
      if remote.password == "" {
        remote := remote.(password := local.password);
      }
      if remote.recovery == "" {
        remote := remote.(recovery := local.recovery);
      }
      if remote.workspace == "" {
        remote := remote.(workspace := local.workspace);
      }
      if remote.user == "" {
        remote := remote.(user := local.user);
      }
      if remote.cookies == "" {
        remote := remote.(cookies := local.cookies);
      }
      merged := local.(password := remote.password, recovery := remote.recovery, workspace := remote.workspace,
                       apiKey := remote.apiKey, user := remote.user, cookies := remote.cookies, cookie := remote.cookie,
                       paidAt := remote.paidAt, status := "ready", error := "", lastLogin := remote.lastLogin,
                       updatedAt := now, provider := remote.provider);
    }

    /** The upload takes over what identifies the stored account, and its values for blank fields. */
    static method Renew(before: Account, sent: Account, rules: Rules, now: int) returns (a: Account)
      ensures a == Renewed(before, sent, rules, now)
    {
      a := sent.(id := before.id, batch := before.batch, createdAt := before.createdAt, proxy := before.proxy);
      if before.paidAt > 0 {
        a := a.(paidAt := before.paidAt);
      }
      if a.password == "" {
        a := a.(password := before.password);
      }
      if a.recovery == "" {
        a := a.(recovery := before.recovery);
      }
      if a.workspace == "" {
        a := a.(workspace := before.workspace);
      }
      if a.user == "" {
        a := a.(user := before.user);
      }
      if a.provider == "" {
        a := a.(provider := before.provider);
      }
      a := a.(provider := rules.provider(a.provider), status := "ready", error := "", updatedAt := now);
    }

    method ImportAutoAccount(source: string, remote': Account, rules: Rules, now: int, newId: string, batch: string)
      returns (outcome: Outcome)
      modifies this
      ensures (View(), outcome) == Import(old(View()), source, remote', rules, now, newId, batch)
    {
      var remote := remote'.(email := rules.lower(Trim(remote'.email)), cookie := Trim(remote'.cookie));
      if remote.cookie == "" {
        remote := remote.(cookie := rules.header(remote.cookies));
      }
      if source == "" || remote.id == "" || '@' !in remote.email || remote.paidAt <= 0 || Trim(remote.apiKey) == "" ||
         remote.cookie == ""
      {
        return Skipped;
      }
      remote := remote.(proxy := "", provider := rules.provider(remote.provider));
      var fingerprint := PrintOf(remote);
      var k := Key(source, remote.id);
      if k in marks {
        var mark := marks[k];
        if remote.updatedAt > 0 && remote.updatedAt < mark.updatedAt {
          return Skipped;
        }
        if mark.seen == fingerprint {
          if remote.updatedAt > mark.updatedAt {
            marks := marks[k := mark.(updatedAt := remote.updatedAt)];
          }
          return Skipped;
        }
      }
      var local: Account;
      if Knows(View(), remote.email) {
        outcome := Updated;
        local := MergeInto(ByEmail(View(), remote.email), remote, now);
      } else {
        outcome := Imported;
        local := remote.(id := newId, batch := batch, status := "ready", error := "", createdAt := now, updatedAt := now);
      }
      Save(local);
      marks := marks[k := Mark(local.id, fingerprint, remote.updatedAt)];
      links := links[k := local.id];
    }

    method ReceiveAutoCookieAccount(sent: Account, rules: Rules, now: int, newId: string, batch: string)
      returns (receipt: Receipt)
      modifies this
      ensures (View(), receipt) == Receive(old(View()), sent, rules, now, newId, batch)
    {
      var a := sent.(email := rules.lower(Trim(sent.email)), cookie := Trim(sent.cookie));
      if a.email == "" || a.cookie == "" || Trim(a.apiKey) == "" || a.paidAt <= 0 {
        return Refused;
      }
      var existed := Knows(View(), a.email);
      if existed {
        var before := ByEmail(View(), a.email);
        if Trim(before.cookie) != "" && a.lastLogin <= before.lastLogin {
          return Received(before, true);
        }
        a := Renew(before, a, rules, now);
      } else {
        a := a.(id := newId, batch := batch, createdAt := now, proxy := "");
        a := a.(provider := rules.provider(a.provider), status := "ready", error := "", updatedAt := now);
      }
      Save(a);
      receipt := Received(a, existed);
    }

    method SyncAutoAccountCredentials(source: string, remote: Account, rules: Rules, now: int) returns (changed: bool)
      modifies `accounts
      ensures View() == Sync(old(View()), source, remote, rules, now)
      ensures changed == Overtaken(old(View()), source, remote, rules)
    {
      if remote.id == "" || remote.lastLogin <= 0 || Trim(remote.cookie) == "" || Trim(remote.apiKey) == "" {
        return false;
      }
      var k := Key(source, remote.id);
      if k !in links || links[k] !in accounts {
        return false;
      }
      var local := accounts[links[k]];
      if !rules.fold(Trim(remote.email), local.email) || remote.lastLogin <= local.lastLogin {
        return false;
      }
      accounts := accounts[links[k] := local.(
        cookies := remote.cookies, cookie := Trim(remote.cookie), apiKey := Trim(remote.apiKey),
        workspace := Or(remote.workspace, local.workspace), user := Or(remote.user, local.user), error := "",
        lastLogin := remote.lastLogin, updatedAt := now)];
      changed := true;
    }

    method LinkAutoAccount(source: string, remote: string, local: string) returns (ok: bool)
      modifies `links
      ensures View() == Link(old(View()), source, remote, local)
      ensures ok == (source != "" && remote != "" && local != "")
    {
      if source == "" || remote == "" || local == "" {
        return false;
      }
      links := links[Key(source, remote) := local];
      ok := true;
    }
  }
}

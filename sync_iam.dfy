/**
  The synchronisation task `SyncIAMRucio` (src/tasks/sync/iam.py): read every user of an
  INDIGO IAM instance through its paged SCIM endpoint, then bring the accounts of a Rucio
  instance in line with them in three passes: add, delete or reactivate accounts; update
  the type, the `sign-gcs` and `admin` attributes and the RSE quotas of every listed
  account; and give each account the OIDC identity of its IAM user.

  The Rucio server is an in-memory map of accounts (class `Rucio`); deleting an account
  marks it DELETED and `list_accounts` lists the ACTIVE ones. The IAM server is a function
  from a request's `startIndex` to the page it returns.
 */
module SyncIam {
  import opened Wrappers
  import opened Seqs
  import opened Tasks

  /** The page size the task asks for. */
  const Count := 100

  /** Rucio's limit on the length of an account name. */
  const MaxAccountLength := 25

  const SignGcs := "sign-gcs"
  const AdminKey := "admin"

  // ---------------------------------------------------------------------------------
  // Users of IAM
  // ---------------------------------------------------------------------------------

  /** A group entry of a SCIM user; only its display name is read. */
  datatype RawGroup = RawGroup(display: string)

  /**
    A SCIM user as the server sends it: its email values in order, and its group
    entries, `None` when the user has no `groups` key.
   */
  datatype RawUser = RawUser(userName: string, active: bool, emails: seq<string>, id: string,
                             groups: Option<seq<RawGroup>>)

  /** One response of `scim/Users`: its `Resources`, `itemsPerPage` and `totalResults`. */
  datatype Page = Page(resources: seq<RawUser>, itemsPerPage: int, totalResults: int)

  /** The `startIndex` of the `k`-th request: 1, 101, 201, … */
  function Start(k: nat): int
  {
    1 + Count * k
  }

  /** `itemsPerPage` summed over the first `n` pages. */
  function Seen(respond: int -> Page, n: nat): int
  {
    if n == 0 then 0 else Seen(respond, n - 1) + respond(Start(n - 1)).itemsPerPage
  }

  /** The `Resources` of the first `n` pages, concatenated in page order. */
  function Gathered(respond: int -> Page, n: nat): seq<RawUser>
  {
    if n == 0 then [] else Gathered(respond, n - 1) + respond(Start(n - 1)).resources
  }

  /** The `k`-th page ends the paging: the items counted so far reach its `totalResults`. */
  predicate Last(respond: int -> Page, k: nat)
  {
    Seen(respond, k + 1) >= respond(Start(k)).totalResults
  }

  /** The users read from the `k`-th request on; `None` when no page before `maxRequests` ends the paging. */
  function PagedFrom(respond: int -> Page, k: nat, maxRequests: nat): Option<seq<RawUser>>
    decreases maxRequests - k
  {
    if k >= maxRequests then None
    else if Last(respond, k) then Some(Gathered(respond, k + 1))
    else PagedFrom(respond, k + 1, maxRequests)
  }

  function Paged(respond: int -> Page, maxRequests: nat): Option<seq<RawUser>>
  {
    PagedFrom(respond, 0, maxRequests)
  }

  /**
    `get_list_of_users_from_IAM`: request pages from `startIndex` 1 on, 100 at a time,
    until the `itemsPerPage` counted reach the page's `totalResults`. `starts` lists the
    requests' start indexes. The requests are bounded by `maxRequests`: `None` means the
    paging had not ended by then.
   */
  method ListUsers(respond: int -> Page, maxRequests: nat) returns (users: Option<seq<RawUser>>, starts: seq<int>)
    ensures |starts| <= maxRequests
    ensures forall k :: 0 <= k < |starts| ==> starts[k] == Start(k)
    ensures forall k :: 0 <= k < |starts| - 1 ==> !Last(respond, k)
    ensures users.Some? ==>
      |starts| >= 1 && Last(respond, |starts| - 1) && users.value == Gathered(respond, |starts|)
    ensures users.None? ==> |starts| == maxRequests && forall k :: 0 <= k < |starts| ==> !Last(respond, k)
    ensures users == Paged(respond, maxRequests)
  {
    var start, seen, acc := 1, 0, [];
    starts := [];
    while |starts| < maxRequests
      invariant |starts| <= maxRequests
      invariant forall k :: 0 <= k < |starts| ==> starts[k] == Start(k) && !Last(respond, k)
      invariant start == Start(|starts|) && seen == Seen(respond, |starts|) && acc == Gathered(respond, |starts|)
      invariant Paged(respond, maxRequests) == PagedFrom(respond, |starts|, maxRequests)
    {
      var page := respond(start);
      starts := starts + [start];
      acc := acc + page.resources;
      seen := seen + page.itemsPerPage;
      if seen < page.totalResults {
        start := start + Count;
      } else {
        return Some(acc), starts;
      }
    }
    return None, starts;
  }

  function Min(a: int, b: int): int
  {
    if a <= b then a else b
  }

  /** `x` brought into `[0, n]`. */
  function Clamp(x: int, n: nat): (r: nat)
    ensures r <= n
  {
    if x < 0 then 0 else if x > n then n else x
  }

  /** A SCIM server holding `all`: the page at `startIndex` s holds users s to s + 99 (from 1). */
  function Served(all: seq<RawUser>, s: int): Page
  {
    var lo := Clamp(s - 1, |all|);
    var hi := Clamp(s - 1 + Count, |all|);
    Page(all[lo..hi], hi - lo, |all|)
  }

  function ServerOf(all: seq<RawUser>): int -> Page
  {
    s => Served(all, s)
  }

  /** From such a server the first `n` pages hold the first `100 · n` users. */
  lemma {:induction false} ServedPages(all: seq<RawUser>, n: nat)
    ensures Seen(ServerOf(all), n) == Min(Count * n, |all|)
    ensures Gathered(ServerOf(all), n) == all[..Min(Count * n, |all|)]
  {
    if n > 0 {
      ServedPages(all, n - 1);
      var lo, hi := Min(Count * (n - 1), |all|), Min(Count * n, |all|);
      assert Served(all, Start(n - 1)) == Page(all[lo..hi], hi - lo, |all|);
      assert all[..lo] + all[lo..hi] == all[..hi];
    }
  }

  lemma {:induction false} ServedFrom(all: seq<RawUser>, k: nat, maxRequests: nat)
    requires k < maxRequests && |all| <= Count * maxRequests
    ensures PagedFrom(ServerOf(all), k, maxRequests) == Some(all)
    decreases maxRequests - k
  {
    ServedPages(all, k + 1);
    if |all| <= Count * (k + 1) {
      assert Last(ServerOf(all), k);
      assert all[..|all|] == all;
    } else {
      assert !Last(ServerOf(all), k);
      ServedFrom(all, k + 1, maxRequests);
    }
  }

  /**
    Paging a server that holds `all` reads all of it, in order, provided the requests
    allowed cover it (at least one, and 100 per request).
   */
  lemma ServedInFull(all: seq<RawUser>, maxRequests: nat)
    requires maxRequests >= 1 && |all| <= Count * maxRequests
    ensures Paged(ServerOf(all), maxRequests) == Some(all)
  {
    ServedFrom(all, 0, maxRequests);
  }

  /** A user as `_parse_iam_users` records it. */
  datatype IamUser = IamUser(username: string, active: bool, email: string, id: string, groups: seq<string>)

  /** The display names of the groups; no `groups` key gives none. */
  function Displays(gs: Option<seq<RawGroup>>): seq<string>
  {
    match gs
    case None => []
    case Some(g) => seq(|g|, i requires 0 <= i < |g| => g[i].display)
  }

  /** Every user has an email: `user['emails'][0]` does not raise. */
  predicate HasEmails(raw: seq<RawUser>)
  {
    forall i :: 0 <= i < |raw| ==> raw[i].emails != []
  }

  /** The record of each user, in order, with its first email and its group names. */
  function Records(raw: seq<RawUser>): seq<IamUser>
    requires HasEmails(raw)
  {
    seq(|raw|, i requires 0 <= i < |raw| =>
      IamUser(raw[i].userName, raw[i].active, raw[i].emails[0], raw[i].id, Displays(raw[i].groups)))
  }

  /** The inner loop of `_parse_iam_users`: each group's display name, in order. */
  method GroupNames(gs: Option<seq<RawGroup>>) returns (names: seq<string>)
    ensures names == Displays(gs)
    ensures gs.None? ==> names == []
    ensures gs.Some? ==> |names| == |gs.value| && forall i :: 0 <= i < |names| ==> names[i] == gs.value[i].display
  {
    names := [];
    if gs.Some? {
      var g := gs.value;
      var i := 0;
      while i < |g|
        invariant 0 <= i <= |g|
        invariant |names| == i && forall j :: 0 <= j < i ==> names[j] == g[j].display
      {
        names := names + [g[i].display];
        i := i + 1;
      }
    }
  }

  /**
    `_parse_iam_users`: one record per user, in order; a user without an email raises
    (an IndexError).
   */
  method ParseUsers(raw: seq<RawUser>) returns (r: Result<seq<IamUser>>)
    ensures r.Raised? <==> !HasEmails(raw)
    ensures r.Ok? ==> HasEmails(raw) && r.value == Records(raw)
    ensures r.Ok? ==> |r.value| == |raw| && forall i :: 0 <= i < |raw| ==>
      r.value[i].username == raw[i].userName && r.value[i].email == raw[i].emails[0]
      && r.value[i].groups == Displays(raw[i].groups)
  {
    var users: seq<IamUser> := [];
    var i := 0;
    while i < |raw|
      invariant 0 <= i <= |raw|
      invariant HasEmails(raw[..i]) && users == Records(raw[..i])
    {
      var u := raw[i];
      if u.emails == [] {
        assert !HasEmails(raw) by { assert raw[i].emails == []; }
        return Raised;
      }
      var groups := GroupNames(u.groups);
      users := users + [IamUser(u.userName, u.active, u.emails[0], u.id, groups)];
      TakeSnoc(raw, i);
      i := i + 1;
    }
    assert raw[..i] == raw;
    return Ok(users);
  }

  // ---------------------------------------------------------------------------------
  // Accounts of Rucio
  // ---------------------------------------------------------------------------------

  datatype AccountType = User | Service | Group
  datatype Status = Active | Suspended | Deleted
  datatype IdentityType = X509 | Gss | UserPass | Ssh | Saml | Oidc

  /** An identity mapped to an account, with the email it was added with. */
  datatype Identity = Identity(identity: string, kind: IdentityType, email: string)

  /**
    A Rucio account: its type and status, its email, its attributes (whether each value
    is truthy), its local limit at each RSE, and its identities.
   */
  datatype Account = Account(accountType: AccountType, status: Status, email: string,
                             attributes: map<string, bool>, limits: map<string, int>,
                             identities: set<Identity>)

  /** The account named `n`; `None` is what makes `get_account` raise AccountNotFound. */
  function Get(m: map<string, Account>, n: string): Option<Account>
  {
    if n in m then Some(m[n]) else None
  }

  /** `list_accounts()`: the active accounts. */
  function Listed(m: map<string, Account>): set<string>
  {
    set n | n in m && m[n].status == Active
  }

  /** Two account maps that agree on every name are one. */
  lemma MapExt(a: map<string, Account>, b: map<string, Account>)
    requires forall n :: Get(a, n) == Get(b, n)
    ensures a == b
  {
    forall n
      ensures n in a <==> n in b
    {
      assert Get(a, n) == Get(b, n);
    }
    forall n | n in a
      ensures a[n] == b[n]
    {
      assert Get(a, n) == Get(b, n);
    }
  }

  /** The Rucio server the client talks to. */
  class Rucio {
    var accounts: map<string, Account>
    /** `list_rses()`, in order. */
    const rses: seq<string>

    constructor (accounts: map<string, Account>, rses: seq<string>)
      ensures this.accounts == accounts && this.rses == rses
    {
      this.accounts := accounts;
      this.rses := rses;
    }

    /** `delete_account(n)`: the account is marked DELETED; a missing one raises AccountNotFound (`found` false). */
    method DeleteAccount(n: string) returns (found: bool)
      modifies this
      ensures found == (n in old(accounts))
      ensures accounts == if found then old(accounts)[n := old(accounts)[n].(status := Deleted)] else old(accounts)
    {
      found := n in accounts;
      if found {
        accounts := accounts[n := accounts[n].(status := Deleted)];
      }
    }

    /** `update_account(n, 'status', s)`. */
    method SetStatus(n: string, s: Status)
      requires n in accounts
      modifies this
      ensures accounts == old(accounts)[n := old(accounts)[n].(status := s)]
    {
      accounts := accounts[n := accounts[n].(status := s)];
    }

    /** `update_account(n, 'account_type', t)`. */
    method SetType(n: string, t: AccountType)
      requires n in accounts
      modifies this
      ensures accounts == old(accounts)[n := old(accounts)[n].(accountType := t)]
    {
      accounts := accounts[n := accounts[n].(accountType := t)];
    }

    /** `add_account(n, type_=t, email=e)`: a new active account with nothing attached. */
    method AddAccount(n: string, t: AccountType, e: string)
      requires n !in accounts
      modifies this
      ensures accounts == old(accounts)[n := Account(t, Active, e, map[], map[], {})]
    {
      accounts := accounts[n := Account(t, Active, e, map[], map[], {})];
    }

    /** `add_account_attribute(n, key, 'True')`. */
    method AddAttribute(n: string, key: string)
      requires n in accounts
      modifies this
      ensures accounts == old(accounts)[n := old(accounts)[n].(attributes := old(accounts)[n].attributes[key := true])]
    {
      accounts := accounts[n := accounts[n].(attributes := accounts[n].attributes[key := true])];
    }

    /** `delete_account_attribute(n, key)`. */
    method DeleteAttribute(n: string, key: string)
      requires n in accounts
      modifies this
      ensures accounts == old(accounts)[n := old(accounts)[n].(attributes := old(accounts)[n].attributes - {key})]
    {
      accounts := accounts[n := accounts[n].(attributes := accounts[n].attributes - {key})];
    }

    /** `set_local_account_limit(n, rse, q)`. */
    method SetLimit(n: string, rse: string, q: int)
      requires n in accounts
      modifies this
      ensures accounts == old(accounts)[n := old(accounts)[n].(limits := old(accounts)[n].limits[rse := q])]
    {
      accounts := accounts[n := accounts[n].(limits := accounts[n].limits[rse := q])];
    }

    /** `add_identity(account=n, identity=…, authtype=…, email=…)`. */
    method AddIdentity(n: string, i: Identity)
      requires n in accounts
      modifies this
      ensures accounts == old(accounts)[n := old(accounts)[n].(identities := old(accounts)[n].identities + {i})]
    {
      accounts := accounts[n := accounts[n].(identities := accounts[n].identities + {i})];
    }
  }

  // ---------------------------------------------------------------------------------
  // Adding, deleting and reactivating accounts
  // ---------------------------------------------------------------------------------

  /** The task's settings: `iam_server_base_url`, the admin and user groups, `rse_quota`, `skip_accounts`, `dry_run`. */
  datatype Config = Config(baseUrl: string, adminGroups: seq<string>, userGroups: seq<string>, rseQuota: int,
                           skip: seq<string>, dryRun: bool)

  /** `set(groups).intersection(wanted)` is not empty. */
  predicate Member(groups: seq<string>, wanted: seq<string>)
  {
    exists g :: g in groups && g in wanted
  }

  function Names(iam: seq<IamUser>): set<string>
  {
    set i | 0 <= i < |iam| :: iam[i].username
  }

  /** The names in exactly one of the two lists (Python's `^`). */
  function Candidates(listed: set<string>, names: set<string>): set<string>
  {
    (listed - names) + (names - listed)
  }

  function Skips(skip: seq<string>): set<string>
  {
    set x | x in skip
  }

  predicate Distinct(skip: seq<string>)
  {
    forall i, j :: 0 <= i < j < |skip| ==> skip[i] != skip[j]
  }

  /** Every `remove` succeeds: each skip account is a candidate, and none is named twice. */
  predicate Removable(xs: set<string>, skip: seq<string>)
  {
    (forall i :: 0 <= i < |skip| ==> skip[i] in xs) && Distinct(skip)
  }

  /**
    The loop `for user in skip_accounts: accounts_not_intersect.remove(user)`: it raises
    a KeyError (`None`) exactly when some skip account is not a candidate or is named
    twice, and otherwise leaves the candidates without the skip accounts.
   */
  method DropSkipped(xs: set<string>, skip: seq<string>) returns (r: Option<set<string>>)
    ensures r.None? <==> !Removable(xs, skip)
    ensures r.Some? ==> r.value == xs - Skips(skip)
  {
    var rest := xs;
    var i := 0;
    while i < |skip|
      invariant 0 <= i <= |skip|
      invariant rest == xs - Skips(skip[..i])
      invariant Removable(xs, skip[..i])
    {
      var s := skip[i];
      if s !in rest {
        if s in xs {
          var j :| 0 <= j < i && skip[j] == s;
          assert !Distinct(skip) by { assert skip[j] == skip[i]; }
        }
        return None;
      }
      rest := rest - {s};
      TakeSnoc(skip, i);
      assert Skips(skip[..i + 1]) == Skips(skip[..i]) + {s};
      i := i + 1;
    }
    assert skip[..i] == skip;
    return Some(rest);
  }

  /** The position of the first user named `name`. */
  function FirstIndex(iam: seq<IamUser>, name: string): (r: Option<nat>)
    ensures r.None? <==> name !in Names(iam)
    ensures r.Some? ==>
      r.value < |iam| && iam[r.value].username == name && forall j :: 0 <= j < r.value ==> iam[j].username != name
  {
    if iam == [] then None
    else if iam[0].username == name then Some(0)
    else
      match FirstIndex(iam[1..], name)
      case None =>
        assert forall i :: 0 < i < |iam| ==> iam[i].username == iam[1..][i - 1].username;
        None
      case Some(k) => Some(k + 1)
  }

  /** `[entry for entry in users_iam if entry['username'] == name][0]`; `None` is the IndexError. */
  function Matching(iam: seq<IamUser>, name: string): (r: Option<IamUser>)
    ensures r.Some? <==> name in Names(iam)
    ensures r.Some? ==> r.value.username == name
  {
    match FirstIndex(iam, name)
    case None => None
    case Some(i) => Some(iam[i])
  }

  /** What the loop does with an IAM user that has no active Rucio account; each names a branch. */
  datatype Decision =
    | SkipInactive | SkipTooLong | SkipAt
    | KeepActive | Reactivate | KeepOther | SkipExisting
    | CreateService | CreateUser | SkipMissing

  /**
    The checks, in the order the task makes them: inactive, longer than 25 characters, containing
    '@'; then, for an existing account, whether the user is in an admin or user group and
    the account's status; for a missing one, which kind of group the user is in.
   */
  function Decide(cfg: Config, u: IamUser, a: Option<Account>): (d: Decision)
    ensures (d.KeepActive? || d.Reactivate? || d.KeepOther? || d.SkipExisting?) ==> a.Some?
    ensures d.Reactivate? ==> a.value.status == Deleted
  {
    if !u.active then SkipInactive
    else if |u.username| > MaxAccountLength then SkipTooLong
    else if '@' in u.username then SkipAt
    else match a
      case Some(x) =>
        if Member(u.groups, cfg.adminGroups) || Member(u.groups, cfg.userGroups) then
          if x.status == Active then KeepActive else if x.status == Deleted then Reactivate else KeepOther
        else SkipExisting
      case None =>
        if Member(u.groups, cfg.adminGroups) then CreateService
        else if Member(u.groups, cfg.userGroups) then CreateUser
        else SkipMissing
  }

  /**
    The account `n` after the loop over the candidates `targets`: a Rucio-only candidate
    is deleted unless in a dry run; an IAM-only one is handled as `Decide` says, creation
    being left out in a dry run and reactivation not.
   */
  function Step1(cfg: Config, iam: seq<IamUser>, listed: set<string>, targets: set<string>, n: string,
                 a: Option<Account>): Option<Account>
  {
    if n !in targets then a
    else if n in listed then
      (if cfg.dryRun || a.None? then a else Some(a.value.(status := Deleted)))
    else match Matching(iam, n)
      // not reached from a candidate, which is an IAM username
      case None => a
      case Some(u) =>
        match Decide(cfg, u, a)
        case Reactivate => Some(a.value.(status := Active))
        case CreateService => if cfg.dryRun then a else Some(Account(Service, Active, u.email, map[], map[], {}))
        case CreateUser => if cfg.dryRun then a else Some(Account(User, Active, u.email, map[], map[], {}))
        case _ => a
  }

  function Reconciled(cfg: Config, iam: seq<IamUser>, listed: set<string>, targets: set<string>,
                      m: map<string, Account>): map<string, Account>
  {
    map n | n in m.Keys + targets && Step1(cfg, iam, listed, targets, n, Get(m, n)).Some? ::
      Step1(cfg, iam, listed, targets, n, Get(m, n)).value
  }

  /** The accounts after the add/delete/reactivate loop of `sync_accounts`. */
  function FirstPass(cfg: Config, iam: seq<IamUser>, m: map<string, Account>): map<string, Account>
  {
    var listed := Listed(m);
    Reconciled(cfg, iam, listed, Candidates(listed, Names(iam)) - Skips(cfg.skip), m)
  }

  lemma ReconciledAt(cfg: Config, iam: seq<IamUser>, listed: set<string>, targets: set<string>,
                     m: map<string, Account>, n: string)
    ensures Get(Reconciled(cfg, iam, listed, targets, m), n) == Step1(cfg, iam, listed, targets, n, Get(m, n))
  {
  }

  /** The body of the loop over the candidates, for candidate `n`. */
  method ReconcileOne(r: Rucio, cfg: Config, iam: seq<IamUser>, listed: set<string>, targets: set<string>,
                      n: string)
    requires n in targets && (n in listed || n in Names(iam))
    modifies r
    ensures forall k :: Get(r.accounts, k) ==
                        if k == n then Step1(cfg, iam, listed, targets, n, Get(old(r.accounts), n))
                        else Get(old(r.accounts), k)
  {
    if n in listed {
      if !cfg.dryRun {
        // AccountNotFound is ignored
        var _ := r.DeleteAccount(n);
      }
      return;
    }
    var u := Matching(iam, n).value;
    if !u.active || |u.username| > MaxAccountLength || '@' in u.username {
      return;
    }
    if n in r.accounts {
      var status := r.accounts[n].status;
      if Member(u.groups, cfg.adminGroups) || Member(u.groups, cfg.userGroups) {
        if status == Deleted {
          r.SetStatus(n, Active);
        }
      }
    } else if Member(u.groups, cfg.adminGroups) {
      if !cfg.dryRun {
        r.AddAccount(n, Service, u.email);
      }
    } else if Member(u.groups, cfg.userGroups) {
      if !cfg.dryRun {
        r.AddAccount(n, User, u.email);
      }
    }
  }

  /**
    The first part of `sync_accounts`: the candidates are the listed accounts and the IAM
    usernames found in only one of the two, less the skip accounts; each is handled once,
    in any order. A failed `remove` raises before anything changes.
   */
  method ReconcilePass(r: Rucio, cfg: Config, iam: seq<IamUser>) returns (raised: bool)
    modifies r
    ensures raised <==> !Removable(Candidates(Listed(old(r.accounts)), Names(iam)), cfg.skip)
    ensures raised ==> r.accounts == old(r.accounts)
    ensures !raised ==> r.accounts == FirstPass(cfg, iam, old(r.accounts))
  {
    var listed := Listed(r.accounts);
    var names := Names(iam);
    var xs := (listed - names) + (names - listed);
    var todo := DropSkipped(xs, cfg.skip);
    if todo.None? {
      return true;
    }
    raised := false;
    var targets := todo.value;
    ghost var m0 := r.accounts;
    var rest := targets;
    while rest != {}
      decreases |rest|
      invariant rest <= targets
      invariant forall k :: Get(r.accounts, k) ==
                            if k in rest then Get(m0, k) else Step1(cfg, iam, listed, targets, k, Get(m0, k))
    {
      var n :| n in rest;
      ReconcileOne(r, cfg, iam, listed, targets, n);
      rest := rest - {n};
    }
    forall k
      ensures Get(r.accounts, k) == Get(Reconciled(cfg, iam, listed, targets, m0), k)
    {
      ReconciledAt(cfg, iam, listed, targets, m0, k);
    }
    MapExt(r.accounts, Reconciled(cfg, iam, listed, targets, m0));
  }

  // ---------------------------------------------------------------------------------
  // Updating the listed accounts
  // ---------------------------------------------------------------------------------

  /** Attribute `key` made a truthy one when `wanted`, removed otherwise. */
  function Wanted(attributes: map<string, bool>, key: string, wanted: bool): map<string, bool>
  {
    if wanted then attributes[key := true] else attributes - {key}
  }

  /** The limits after `set_local_account_limit(…, rse, q)` for each of `rses` in turn. */
  function Quota(limits: map<string, int>, rses: seq<string>, q: int): map<string, int>
  {
    if rses == [] then limits else Quota(limits, rses[..|rses| - 1], q)[rses[|rses| - 1] := q]
  }

  /**
    An account updated for its IAM user `u`: the type SERVICE for an admin-group member,
    else USER for a user-group member, else the account deleted; `sign-gcs` kept iff in a
    user group, `admin` iff in an admin group; and a user-group member's limit at every
    RSE set to `rseQuota`.
   */
  function Synced(cfg: Config, rses: seq<string>, u: IamUser, x: Account): Account
  {
    var admin := Member(u.groups, cfg.adminGroups);
    var user := Member(u.groups, cfg.userGroups);
    var typed := if admin then x.(accountType := Service) else if user then x.(accountType := User)
                 else x.(status := Deleted);
    typed.(attributes := Wanted(Wanted(x.attributes, SignGcs, user), AdminKey, admin),
           limits := if user then Quota(x.limits, rses, cfg.rseQuota) else x.limits)
  }

  /** A non-skipped listed account: unchanged in a dry run or without an IAM user of its name. */
  function Step2(cfg: Config, rses: seq<string>, iam: seq<IamUser>, n: string, x: Account): Account
  {
    if cfg.dryRun then x
    else match Matching(iam, n)
      case None => x
      case Some(u) => Synced(cfg, rses, u, x)
  }

  function Updated(cfg: Config, rses: seq<string>, iam: seq<IamUser>, m: map<string, Account>)
    : map<string, Account>
  {
    map n | n in m :: if n in Listed(m) && n !in cfg.skip then Step2(cfg, rses, iam, n, m[n]) else m[n]
  }

  /** Syncing attribute `key`: a falsy value is removed and added again; a missing one is added. */
  method SyncAttribute(r: Rucio, n: string, key: string, wanted: bool)
    requires n in r.accounts
    modifies r
    ensures r.accounts == old(r.accounts)[n := old(r.accounts)[n].(attributes :=
                                             Wanted(old(r.accounts)[n].attributes, key, wanted))]
  {
    var attributes := r.accounts[n].attributes;
    if wanted {
      var present := key in attributes;
      if present && !attributes[key] {
        r.DeleteAttribute(n, key);
        present := false;
      }
      if !present {
        r.AddAttribute(n, key);
        assert (attributes - {key})[key := true] == attributes[key := true];
      } else {
        assert attributes[key := true] == attributes;
        assert r.accounts[n := r.accounts[n]] == r.accounts;
      }
    } else if key in attributes {
      r.DeleteAttribute(n, key);
    } else {
      assert attributes - {key} == attributes;
      assert r.accounts[n := r.accounts[n]] == r.accounts;
    }
  }

  /** The quota loop: each RSE whose limit is missing or differs from `quota` is set to it. */
  method SetQuotas(r: Rucio, n: string, quota: int)
    requires n in r.accounts
    modifies r
    ensures r.accounts == old(r.accounts)[n := old(r.accounts)[n].(limits :=
                                             Quota(old(r.accounts)[n].limits, r.rses, quota))]
  {
    ghost var x := r.accounts[n];
    assert r.accounts == r.accounts[n := x.(limits := Quota(x.limits, r.rses[..0], quota))];
    var i := 0;
    while i < |r.rses|
      invariant 0 <= i <= |r.rses|
      invariant r.accounts == old(r.accounts)[n := x.(limits := Quota(x.limits, r.rses[..i], quota))]
    {
      var rse := r.rses[i];
      var limits := r.accounts[n].limits;
      assert r.rses[..i + 1][..i] == r.rses[..i];
      if rse in limits && limits[rse] == quota {
        assert limits[rse := quota] == limits;
      } else {
        r.SetLimit(n, rse, quota);
      }
      i := i + 1;
    }
    assert r.rses[..i] == r.rses;
  }

  /** The body of the update loop for a non-skipped listed account `n`. */
  method UpdateOne(r: Rucio, cfg: Config, iam: seq<IamUser>, n: string)
    requires n in r.accounts
    modifies r
    ensures r.accounts == old(r.accounts)[n := Step2(cfg, r.rses, iam, n, old(r.accounts)[n])]
  {
    if cfg.dryRun {
      assert r.accounts[n := r.accounts[n]] == r.accounts;
      return;
    }
    var found := Matching(iam, n);
    if found.None? {
      // the IndexError: `continue`
      assert r.accounts[n := r.accounts[n]] == r.accounts;
      return;
    }
    var u := found.value;
    ghost var x := r.accounts[n];
    var admin, user := Member(u.groups, cfg.adminGroups), Member(u.groups, cfg.userGroups);
    var accountType := r.accounts[n].accountType;
    if admin {
      if accountType != Service {
        r.SetType(n, Service);
      }
    } else if user {
      if accountType != User {
        r.SetType(n, User);
      }
    } else {
      var _ := r.DeleteAccount(n);
    }
    ghost var typed := if admin then x.(accountType := Service) else if user then x.(accountType := User)
                       else x.(status := Deleted);
    assert r.accounts == old(r.accounts)[n := typed];
    SyncAttribute(r, n, SignGcs, user);
    if user {
      SetQuotas(r, n, cfg.rseQuota);
    }
    SyncAttribute(r, n, AdminKey, admin);
  }

  /** The update loop over the refreshed list of accounts, skip accounts passed over. */
  method UpdatePass(r: Rucio, cfg: Config, iam: seq<IamUser>)
    modifies r
    ensures r.accounts == Updated(cfg, r.rses, iam, old(r.accounts))
  {
    var listed := Listed(r.accounts);
    ghost var m0 := r.accounts;
    var rest := listed;
    while rest != {}
      decreases |rest|
      invariant rest <= listed
      invariant r.accounts.Keys == m0.Keys
      invariant forall k :: k in m0 ==>
        r.accounts[k] == (if k in listed - rest && k !in cfg.skip then Step2(cfg, r.rses, iam, k, m0[k]) else m0[k])
    {
      var n :| n in rest;
      if n !in cfg.skip {
        UpdateOne(r, cfg, iam, n);
      }
      rest := rest - {n};
    }
  }

  /** What `sync_accounts` leaves: `None` when removing the skip accounts raises. */
  function Accounts(cfg: Config, rses: seq<string>, iam: seq<IamUser>, m: map<string, Account>)
    : Option<map<string, Account>>
  {
    var listed := Listed(m);
    var xs := Candidates(listed, Names(iam));
    if !Removable(xs, cfg.skip) then None
    else Some(Updated(cfg, rses, iam, FirstPass(cfg, iam, m)))
  }

  /** `sync_accounts(users)`: parse the users, add/delete/reactivate, refresh the listing and update. */
  method SyncAccounts(r: Rucio, cfg: Config, raw: seq<RawUser>) returns (raised: bool)
    modifies r
    ensures !HasEmails(raw) ==> raised && r.accounts == old(r.accounts)
    ensures HasEmails(raw) ==>
      match Accounts(cfg, r.rses, Records(raw), old(r.accounts))
      case None => raised && r.accounts == old(r.accounts)
      case Some(m) => !raised && r.accounts == m
  {
    var parsed := ParseUsers(raw);
    if parsed.Raised? {
      return true;
    }
    var iam := parsed.value;
    raised := ReconcilePass(r, cfg, iam);
    if raised {
      return;
    }
    UpdatePass(r, cfg, iam);
  }

  // ---------------------------------------------------------------------------------
  // OIDC identities
  // ---------------------------------------------------------------------------------

  /** `"SUB={}, ISS={}".format(id, iam_server_base_url)`. */
  function OidcIdentity(id: string, baseUrl: string): string
  {
    "SUB=" + id + ", ISS=" + baseUrl
  }

  predicate HasOidc(x: Account, identity: string)
  {
    exists i :: i in x.identities && i.identity == identity && i.kind == Oidc
  }

  /** A non-skipped listed account: its user's identity is added unless present or in a dry run. */
  function Step3(cfg: Config, iam: seq<IamUser>, n: string, x: Account): Account
  {
    match Matching(iam, n)
    case None => x
    case Some(u) =>
      var identity := OidcIdentity(u.id, cfg.baseUrl);
      if cfg.dryRun || HasOidc(x, identity) then x
      else x.(identities := x.identities + {Identity(identity, Oidc, u.email)})
  }

  function WithOidc(cfg: Config, iam: seq<IamUser>, m: map<string, Account>): map<string, Account>
  {
    map n | n in m :: if n in Listed(m) && n !in cfg.skip then Step3(cfg, iam, n, m[n]) else m[n]
  }

  /** The body of the `add_oidc` loop for a non-skipped listed account `n`. */
  method OidcOne(r: Rucio, cfg: Config, iam: seq<IamUser>, n: string)
    requires n in r.accounts
    modifies r
    ensures r.accounts == old(r.accounts)[n := Step3(cfg, iam, n, old(r.accounts)[n])]
  {
    var found := Matching(iam, n);
    if found.Some? {
      var u := found.value;
      var identity := OidcIdentity(u.id, cfg.baseUrl);
      var existing := set i | i in r.accounts[n].identities && i.identity == identity && i.kind == Oidc;
      if existing == {} && !cfg.dryRun {
        assert !HasOidc(r.accounts[n], identity) by {
          forall i | i in r.accounts[n].identities && i.identity == identity && i.kind == Oidc
            ensures i in existing
          {
          }
        }
        r.AddIdentity(n, Identity(identity, Oidc, u.email));
        return;
      }
      if existing != {} {
        var i :| i in existing;
      }
    }
    assert r.accounts[n := r.accounts[n]] == r.accounts;
  }

  /** `add_oidc(users)`: parse the users again and give each non-skipped listed account its identity. */
  method AddOidc(r: Rucio, cfg: Config, raw: seq<RawUser>) returns (raised: bool)
    modifies r
    ensures raised <==> !HasEmails(raw)
    ensures raised ==> r.accounts == old(r.accounts)
    ensures !raised ==> r.accounts == WithOidc(cfg, Records(raw), old(r.accounts))
  {
    var parsed := ParseUsers(raw);
    if parsed.Raised? {
      return true;
    }
    raised := false;
    var iam := parsed.value;
    var listed := Listed(r.accounts);
    ghost var m0 := r.accounts;
    var rest := listed;
    while rest != {}
      decreases |rest|
      invariant rest <= listed
      invariant r.accounts.Keys == m0.Keys
      invariant forall k :: k in m0 ==>
        r.accounts[k] == (if k in listed - rest && k !in cfg.skip then Step3(cfg, iam, k, m0[k]) else m0[k])
    {
      var n :| n in rest;
      if n !in cfg.skip {
        OidcOne(r, cfg, iam, n);
      }
      rest := rest - {n};
    }
  }

  // ---------------------------------------------------------------------------------
  // The task
  // ---------------------------------------------------------------------------------

  /** The kwargs `run` reads; `None` is a missing key. */
  datatype Kwargs = Kwargs(iamServerBaseUrl: Option<string>, clientId: Option<string>, clientSecret: Option<string>,
                           rucioAdminIamGroups: Option<seq<string>>, rucioUserIamGroups: Option<seq<string>>,
                           rseQuota: Option<int>, skipAccounts: Option<seq<string>>, dryRun: Option<bool>)

  predicate Complete(k: Kwargs)
  {
    k.iamServerBaseUrl.Some? && k.clientId.Some? && k.clientSecret.Some? && k.rucioAdminIamGroups.Some?
    && k.rucioUserIamGroups.Some? && k.rseQuota.Some? && k.skipAccounts.Some? && k.dryRun.Some?
  }

  function ConfigOf(k: Kwargs): Config
    requires Complete(k)
  {
    Config(k.iamServerBaseUrl.value, k.rucioAdminIamGroups.value, k.rucioUserIamGroups.value, k.rseQuota.value,
           k.skipAccounts.value, k.dryRun.value)
  }

  /** The whole synchronisation: `sync_accounts` then `add_oidc`. */
  function Sync(cfg: Config, rses: seq<string>, iam: seq<IamUser>, m: map<string, Account>)
    : Option<map<string, Account>>
  {
    match Accounts(cfg, rses, iam, m)
    case None => None
    case Some(m2) => Some(WithOidc(cfg, iam, m2))
  }

  /**
    `run(args, kwargs)`: a missing kwarg returns False; a token response without an
    `access_token` raises; then the users are paged in (`None`: the paging had not ended
    within `maxRequests` requests) and the accounts synchronised, raising on a user
    without an email or on a failed skip-account removal, before any change.
   */
  method Run(k: Kwargs, token: Option<string>, respond: int -> Page, maxRequests: nat, r: Rucio)
    returns (end: Option<Ending>)
    modifies r
    ensures !Complete(k) ==> end == Some(ReturnedFalse) && r.accounts == old(r.accounts)
    ensures Complete(k) && token.None? ==> end == Some(Raising) && r.accounts == old(r.accounts)
    ensures Complete(k) && token.Some? ==>
      match Paged(respond, maxRequests)
      case None => end.None? && r.accounts == old(r.accounts)
      case Some(raw) =>
        if !HasEmails(raw) then end == Some(Raising) && r.accounts == old(r.accounts)
        else match Sync(ConfigOf(k), r.rses, Records(raw), old(r.accounts))
          case None => end == Some(Raising) && r.accounts == old(r.accounts)
          case Some(m) => end == Some(Finished) && r.accounts == m
  {
    if !Complete(k) {
      return Some(ReturnedFalse);
    }
    var cfg := ConfigOf(k);
    if token.None? {
      return Some(Raising);
    }
    var users, _ := ListUsers(respond, maxRequests);
    if users.None? {
      return None;
    }
    var raised := SyncAccounts(r, cfg, users.value);
    if raised {
      return Some(Raising);
    }
    raised := AddOidc(r, cfg, users.value);
    if raised {
      return Some(Raising);
    }
    return Some(Finished);
  }

  // ---------------------------------------------------------------------------------
  // Properties
  // ---------------------------------------------------------------------------------

  /** The name checks come first, in the order the task makes them: inactive, too long, containing '@'. */
  lemma DecideOrder(cfg: Config, u: IamUser, a: Option<Account>)
    ensures Decide(cfg, u, a) == SkipInactive <==> !u.active
    ensures Decide(cfg, u, a) == SkipTooLong <==> u.active && |u.username| > MaxAccountLength
    ensures Decide(cfg, u, a) == SkipAt <==>
      u.active && |u.username| <= MaxAccountLength && '@' in u.username
  {
  }

  /** A user whose name Rucio accepts: active, at most 25 characters, no '@'. */
  predicate Admissible(u: IamUser)
  {
    u.active && |u.username| <= MaxAccountLength && '@' !in u.username
  }

  /**
    A listed account loses its status exactly when it is a Rucio-only account, not a
    skip account, and the run is not a dry run; it is then DELETED.
   */
  lemma ListedAccount(cfg: Config, iam: seq<IamUser>, m: map<string, Account>, n: string)
    requires n in Listed(m)
    ensures n in FirstPass(cfg, iam, m)
    ensures FirstPass(cfg, iam, m)[n] ==
      if n !in Names(iam) && n !in cfg.skip && !cfg.dryRun then m[n].(status := Deleted) else m[n]
  {
    var listed := Listed(m);
    ReconciledAt(cfg, iam, listed, Candidates(listed, Names(iam)) - Skips(cfg.skip), m, n);
  }

  /**
    An account is created exactly for an admissible IAM-only user who is not a skip
    account and is in an admin or user group, and not in a dry run: active, with the
    user's first email, SERVICE for an admin-group member and USER otherwise.
   */
  lemma MissingAccount(cfg: Config, iam: seq<IamUser>, m: map<string, Account>, n: string)
    requires n !in m
    ensures n in FirstPass(cfg, iam, m) <==>
      n in Names(iam) && n !in cfg.skip && !cfg.dryRun && Admissible(Matching(iam, n).value)
      && (Member(Matching(iam, n).value.groups, cfg.adminGroups)
          || Member(Matching(iam, n).value.groups, cfg.userGroups))
    ensures n in FirstPass(cfg, iam, m) ==>
      var u := Matching(iam, n).value;
      FirstPass(cfg, iam, m)[n] ==
        Account(if Member(u.groups, cfg.adminGroups) then Service else User, Active, u.email, map[], map[], {})
  {
    var listed := Listed(m);
    ReconciledAt(cfg, iam, listed, Candidates(listed, Names(iam)) - Skips(cfg.skip), m, n);
  }

  /**
    An existing account that is not listed and belongs to an IAM user who is not a skip
    account is reactivated exactly when the user is admissible, in an admin or user group,
    and the account is DELETED, in a dry run too; otherwise it is left as it is.
   */
  lemma UnlistedAccount(cfg: Config, iam: seq<IamUser>, m: map<string, Account>, n: string)
    requires n in m && n !in Listed(m) && n in Names(iam) && n !in cfg.skip
    ensures n in FirstPass(cfg, iam, m)
    ensures var u := Matching(iam, n).value;
      FirstPass(cfg, iam, m)[n] ==
        if Admissible(u) && (Member(u.groups, cfg.adminGroups) || Member(u.groups, cfg.userGroups))
           && m[n].status == Deleted
        then m[n].(status := Active) else m[n]
  {
    var listed := Listed(m);
    ReconciledAt(cfg, iam, listed, Candidates(listed, Names(iam)) - Skips(cfg.skip), m, n);
  }

  /** One name through two runs of the first loop, the second over the listing the first leaves. */
  lemma SettlesAt(cfg: Config, iam: seq<IamUser>, listed: set<string>, targets: set<string>,
                  listed1: set<string>, targets1: set<string>, a: Option<Account>, n: string)
    requires targets == Candidates(listed, Names(iam)) - Skips(cfg.skip)
    requires targets1 == Candidates(listed1, Names(iam)) - Skips(cfg.skip)
    requires (n in listed) == (a.Some? && a.value.status == Active)
    requires var b := Step1(cfg, iam, listed, targets, n, a);
      (n in listed1) == (b.Some? && b.value.status == Active)
    ensures Step1(cfg, iam, listed1, targets1, n, Step1(cfg, iam, listed, targets, n, a))
            == Step1(cfg, iam, listed, targets, n, a)
  {
    if n in targets && n !in listed {
      var u := Matching(iam, n).value;
      assert Step1(cfg, iam, listed, targets, n, a) == a || Decide(cfg, u, a).Reactivate?
        || Decide(cfg, u, a).CreateService? || Decide(cfg, u, a).CreateUser?;
    }
  }

  /**
    A second run of the first loop, from the accounts the first run leaves, changes
    nothing, and its skip-account removal does not raise either.
   */
  lemma FirstPassSettles(cfg: Config, iam: seq<IamUser>, m: map<string, Account>)
    requires Removable(Candidates(Listed(m), Names(iam)), cfg.skip)
    ensures var m1 := FirstPass(cfg, iam, m);
      Removable(Candidates(Listed(m1), Names(iam)), cfg.skip) && FirstPass(cfg, iam, m1) == m1
  {
    var listed := Listed(m);
    var targets := Candidates(listed, Names(iam)) - Skips(cfg.skip);
    var m1 := FirstPass(cfg, iam, m);
    var listed1 := Listed(m1);
    var targets1 := Candidates(listed1, Names(iam)) - Skips(cfg.skip);
    forall n
      ensures Get(FirstPass(cfg, iam, m1), n) == Get(m1, n)
      ensures n !in targets ==> (n in listed1 <==> n in listed)
    {
      ReconciledAt(cfg, iam, listed, targets, m, n);
      ReconciledAt(cfg, iam, listed1, targets1, m1, n);
      SettlesAt(cfg, iam, listed, targets, listed1, targets1, Get(m, n), n);
    }
    forall i | 0 <= i < |cfg.skip|
      ensures cfg.skip[i] in Candidates(listed1, Names(iam))
    {
      assert cfg.skip[i] !in targets;
    }
    MapExt(FirstPass(cfg, iam, m1), m1);
  }

  /** Quota sets the limit at every RSE listed and leaves the others as they were. */
  lemma {:induction false} QuotaAt(limits: map<string, int>, rses: seq<string>, q: int)
    ensures forall rse :: rse in rses ==> rse in Quota(limits, rses, q) && Quota(limits, rses, q)[rse] == q
    ensures forall rse :: rse !in rses ==>
      (rse in Quota(limits, rses, q) <==> rse in limits)
      && (rse in limits ==> Quota(limits, rses, q)[rse] == limits[rse])
  {
    if rses != [] {
      QuotaAt(limits, rses[..|rses| - 1], q);
      assert forall rse :: rse in rses ==> rse in rses[..|rses| - 1] || rse == rses[|rses| - 1];
    }
  }

  lemma QuotaIdempotent(limits: map<string, int>, rses: seq<string>, q: int)
    ensures Quota(Quota(limits, rses, q), rses, q) == Quota(limits, rses, q)
  {
    var l1 := Quota(limits, rses, q);
    QuotaAt(limits, rses, q);
    QuotaAt(l1, rses, q);
    assert Quota(l1, rses, q).Keys == l1.Keys;
  }

  /**
    An account after the update: SERVICE for an admin-group member, USER for a user-group
    member only, DELETED when in neither; `sign-gcs` present and truthy iff in a user
    group, `admin` likewise iff in an admin group, other attributes as they were; a
    user-group member's limit is the quota at every RSE; email and identities kept.
   */
  lemma SyncedMeans(cfg: Config, rses: seq<string>, u: IamUser, x: Account)
    ensures var y := Synced(cfg, rses, u, x);
      var admin, user := Member(u.groups, cfg.adminGroups), Member(u.groups, cfg.userGroups);
      (admin ==> y.accountType == Service && y.status == x.status)
      && (!admin && user ==> y.accountType == User && y.status == x.status)
      && (!admin && !user ==> y.accountType == x.accountType && y.status == Deleted)
      && (SignGcs in y.attributes <==> user) && (user ==> y.attributes[SignGcs])
      && (AdminKey in y.attributes <==> admin) && (admin ==> y.attributes[AdminKey])
      && (forall key :: key != SignGcs && key != AdminKey ==>
            (key in y.attributes <==> key in x.attributes)
            && (key in x.attributes ==> y.attributes[key] == x.attributes[key]))
      && (user ==> forall rse :: rse in rses ==> rse in y.limits && y.limits[rse] == cfg.rseQuota)
      && (!user ==> y.limits == x.limits)
      && y.email == x.email && y.identities == x.identities
  {
    QuotaAt(x.limits, rses, cfg.rseQuota);
    assert SignGcs != AdminKey by { assert SignGcs[0] != AdminKey[0]; }
  }

  lemma WantedIdempotent(attributes: map<string, bool>, key: string, wanted: bool)
    ensures Wanted(Wanted(attributes, key, wanted), key, wanted) == Wanted(attributes, key, wanted)
  {
  }

  lemma SyncedIdempotent(cfg: Config, rses: seq<string>, u: IamUser, x: Account)
    ensures Synced(cfg, rses, u, Synced(cfg, rses, u, x)) == Synced(cfg, rses, u, x)
  {
    var y := Synced(cfg, rses, u, x);
    var admin, user := Member(u.groups, cfg.adminGroups), Member(u.groups, cfg.userGroups);
    QuotaIdempotent(x.limits, rses, cfg.rseQuota);
    var a0 := Wanted(x.attributes, SignGcs, user);
    var a1 := Wanted(a0, AdminKey, admin);
    assert SignGcs != AdminKey by { assert SignGcs[0] != AdminKey[0]; }
    assert Wanted(Wanted(a1, SignGcs, user), AdminKey, admin) == a1;
  }

  /**
    The update pass is idempotent: a second run over the accounts it leaves changes
    nothing (an account it deleted is no longer listed).
   */
  lemma UpdatedIdempotent(cfg: Config, rses: seq<string>, iam: seq<IamUser>, m: map<string, Account>)
    ensures Updated(cfg, rses, iam, Updated(cfg, rses, iam, m)) == Updated(cfg, rses, iam, m)
  {
    var m1 := Updated(cfg, rses, iam, m);
    forall n | n in m1
      ensures Updated(cfg, rses, iam, m1)[n] == m1[n]
    {
      if n in Listed(m1) && n !in cfg.skip {
        assert n in Listed(m);
        if !cfg.dryRun && Matching(iam, n).Some? {
          SyncedIdempotent(cfg, rses, Matching(iam, n).value, m[n]);
        }
      }
    }
  }

  /**
    Outside a dry run, every non-skipped listed account with an IAM user of its name
    holds that user's OIDC identity afterwards, added with the user's email when it had
    none; nothing else about any account changes.
   */
  lemma OidcAdded(cfg: Config, iam: seq<IamUser>, m: map<string, Account>, n: string)
    requires n in m
    ensures n in WithOidc(cfg, iam, m)
    ensures var y := WithOidc(cfg, iam, m)[n];
      y == m[n].(identities := y.identities) && m[n].identities <= y.identities
    ensures n in Listed(m) && n !in cfg.skip && !cfg.dryRun && n in Names(iam) ==>
      var u := Matching(iam, n).value;
      var identity := OidcIdentity(u.id, cfg.baseUrl);
      HasOidc(WithOidc(cfg, iam, m)[n], identity)
      && WithOidc(cfg, iam, m)[n].identities ==
           if HasOidc(m[n], identity) then m[n].identities
           else m[n].identities + {Identity(identity, Oidc, u.email)}
  {
    if n in Listed(m) && n !in cfg.skip && !cfg.dryRun && n in Names(iam) {
      var u := Matching(iam, n).value;
      var identity := OidcIdentity(u.id, cfg.baseUrl);
      if !HasOidc(m[n], identity) {
        assert Identity(identity, Oidc, u.email) in WithOidc(cfg, iam, m)[n].identities;
      }
    }
  }

  /** Adding the identities twice adds nothing the second time. */
  lemma WithOidcIdempotent(cfg: Config, iam: seq<IamUser>, m: map<string, Account>)
    ensures WithOidc(cfg, iam, WithOidc(cfg, iam, m)) == WithOidc(cfg, iam, m)
  {
    var m1 := WithOidc(cfg, iam, m);
    assert Listed(m1) == Listed(m);
    forall n | n in m1
      ensures WithOidc(cfg, iam, m1)[n] == m1[n]
    {
      if n in Listed(m) && n !in cfg.skip && Matching(iam, n).Some? {
        var u := Matching(iam, n).value;
        var identity := OidcIdentity(u.id, cfg.baseUrl);
        if !cfg.dryRun && !HasOidc(m[n], identity) {
          assert Identity(identity, Oidc, u.email) in m1[n].identities;
        }
      }
    }
  }

  /** The skip accounts come through the whole synchronisation as they were. */
  lemma SkippedUntouched(cfg: Config, rses: seq<string>, iam: seq<IamUser>, m: map<string, Account>, n: string)
    requires Sync(cfg, rses, iam, m).Some? && n in cfg.skip
    ensures Get(Sync(cfg, rses, iam, m).value, n) == Get(m, n)
  {
    var listed := Listed(m);
    ReconciledAt(cfg, iam, listed, Candidates(listed, Names(iam)) - Skips(cfg.skip), m, n);
  }

  /**
    A dry run changes no account but for reactivating DELETED ones of IAM users, and
    adds none.
   */
  lemma DryRunReactivatesOnly(cfg: Config, rses: seq<string>, iam: seq<IamUser>, m: map<string, Account>)
    requires cfg.dryRun && Sync(cfg, rses, iam, m).Some?
    ensures var m3 := Sync(cfg, rses, iam, m).value;
      m3.Keys == m.Keys
      && forall n :: n in m ==>
           m3[n] == m[n] || (n in Names(iam) && m[n].status == Deleted && m3[n] == m[n].(status := Active))
  {
    var listed := Listed(m);
    var targets := Candidates(listed, Names(iam)) - Skips(cfg.skip);
    var m1 := FirstPass(cfg, iam, m);
    forall n
      ensures Get(m1, n) == Get(m, n)
              || (n in m && n in Names(iam) && m[n].status == Deleted && Get(m1, n) == Some(m[n].(status := Active)))
    {
      ReconciledAt(cfg, iam, listed, targets, m, n);
    }
    assert Updated(cfg, rses, iam, m1) == m1;
    assert WithOidc(cfg, iam, m1) == m1;
  }
}

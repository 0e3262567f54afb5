/**
  internal/accounts: the account model, and the credential scopes issuance aggregates from it
  for the external consumers of the DMZ.
 */
module Accounts {
  import opened Basics
  import opened Text
  import opened Naming
  import opened Sorting
  import opened Topology

  datatype Import = Import(fromAccount: string, subject: string)

  datatype UserTemplate = UserTemplate(
    user: string,
    publish: seq<string>,
    subscribe: seq<string>,
    publishDeny: seq<string>,
    subscribeDeny: seq<string>)

  datatype Account = Account(
    name: string,
    jetStream: bool,
    exports: seq<string>,
    imports: seq<Import>,
    users: seq<UserTemplate>)

  datatype Model = Model(dot: string, accounts: seq<Account>)

  // ---- what the model of a topology is ----

  function Space(t: Topology, d: string): string
    requires d in t.district
  {
    SubjectSpace(t.dot, d, t.district[d].subjectPrefix)
  }

  function DistrictAccount(t: Topology, d: string): Account
    requires d in t.district
  {
    var s := Space(t, d);
    Account(DistrictAccountName(d), true, [s], [], [UserTemplate("cabinet", [s], [s], [], [])])
  }

  const SYSTEM := Account(SYSTEM_ACCOUNT, false, [], [], [UserTemplate("system", [], [], [], [])])

  predicate Complete(s: Share) { s.from.Some? && s.public.Some? && s.consumer.Some? }

  function Template(s: Share): UserTemplate
    requires Complete(s)
  {
    UserTemplate(s.consumer.value, [], [s.public.value], [">"], [])
  }

  /** One template per complete share, in declaration order. */
  function Templates(shares: seq<Share>): seq<UserTemplate>
  {
    if shares == [] then []
    else
      var s := shares[|shares| - 1];
      Templates(shares[..|shares| - 1]) + (if Complete(s) then [Template(s)] else [])
  }

  ghost predicate IsFrom(shares: seq<Share>, from: string)
  {
    exists s <- shares :: Complete(s) && s.from.value == from
  }

  function Shares(t: Topology): seq<Share>
  {
    if t.dmz.Some? then t.dmz.value.shares else []
  }

  /** CENTRAL imports every district's space and exports what is shared. */
  ghost predicate CentralOf(t: Topology, ids: seq<string>, a: Account)
  {
    && a.name == CENTRAL_ACCOUNT && a.jetStream && a.users == []
    && |a.imports| == |ids|
    && (forall i :: 0 <= i < |ids| ==>
        ids[i] in t.district && a.imports[i] == Import(DistrictAccountName(ids[i]), Space(t, ids[i])))
    && StrictBy(a.exports, (e: string) => e)
    && forall e :: e in a.exports <==> IsFrom(Shares(t), e)
  }

  predicate FromCentral(imports: seq<Import>, subject: string) { Import(CENTRAL_ACCOUNT, subject) in imports }

  /** DMZ imports each shared subject once and carries one subscribe-only template per share. */
  ghost predicate DmzOf(t: Topology, a: Account)
  {
    && a.name == DMZ_ACCOUNT && a.jetStream && a.exports == []
    && StrictBy(a.imports, (m: Import) => m.subject)
    && (forall m <- a.imports :: m.fromAccount == CENTRAL_ACCOUNT)
    && (forall e :: FromCentral(a.imports, e) <==> IsFrom(Shares(t), e))
    && multiset(a.users) == multiset(Templates(Shares(t)))
  }

  function DistrictAccounts(t: Topology, ids: seq<string>): (accounts: seq<Account>)
    requires forall d <- ids :: d in t.district
    ensures |accounts| == |ids|
  {
    seq(|ids|, i requires 0 <= i < |ids| => DistrictAccount(t, ids[i]))
  }

  ghost predicate Parts(t: Topology, ids: seq<string>, central: Account, dmz: seq<Account>)
    ensures Parts(t, ids, central, dmz) ==> forall d <- ids :: d in t.district
  {
    && (forall i, j :: 0 <= i < j < |ids| ==> Less(ids[i], ids[j]))
    && (forall d :: d in ids <==> d in t.district)
    && CentralOf(t, ids, central)
    && (if t.dmz.Some? then |dmz| == 1 && DmzOf(t, dmz[0]) else dmz == [])
  }

  function Parted(t: Topology, ids: seq<string>, central: Account, dmz: seq<Account>): (all: seq<Account>)
    requires forall d <- ids :: d in t.district
    ensures |all| == |ids| + 2 + |dmz|
  {
    [central] + DistrictAccounts(t, ids) + [SYSTEM] + dmz
  }

  ghost predicate ModelOf(t: Topology, m: Model)
  {
    && m.dot == t.dot
    && SortedBy(m.accounts, (a: Account) => a.name)
    && exists ids, central, dmz :: Parts(t, ids, central, dmz)
         && multiset(m.accounts) == multiset(Parted(t, ids, central, dmz))
  }

  // ---- Build ----

  method Build(t: Topology) returns (m: Model)
    ensures ModelOf(t, m)
  {
    var ids := SortedKeys(t.district.Keys);
    var imports, districts := BuildDistricts(t, ids);
    var exports: seq<string>, dmz: seq<Account> := [], [];
    if t.dmz.Some? {
      var account;
      exports, account := BuildDmz(t);
      dmz := [account];
    } else {
      assert forall e :: !IsFrom(Shares(t), e);
    }
    var central := Account(CENTRAL_ACCOUNT, true, exports, imports, []);
    m := Assemble(t, ids, central, districts, dmz);
  }

  method Assemble(t: Topology, ids: seq<string>, central: Account, districts: seq<Account>, dmz: seq<Account>)
    returns (m: Model)
    requires Parts(t, ids, central, dmz) && districts == DistrictAccounts(t, ids)
    ensures ModelOf(t, m)
  {
    hide Parts;
    var accounts := SortSlice([central] + districts + [SYSTEM] + dmz, (a: Account) => a.name);
    m := Model(t.dot, accounts);
  }

  method BuildDistricts(t: Topology, ids: seq<string>) returns (imports: seq<Import>, districts: seq<Account>)
    requires forall d <- ids :: d in t.district
    ensures |imports| == |ids| && districts == DistrictAccounts(t, ids)
    ensures forall k :: 0 <= k < |ids| ==> imports[k] == Import(DistrictAccountName(ids[k]), Space(t, ids[k]))
  {
    imports, districts := [], [];
    for i := 0 to |ids|
      invariant |imports| == |districts| == i
      invariant forall k :: 0 <= k < i ==> imports[k] == Import(DistrictAccountName(ids[k]), Space(t, ids[k]))
      invariant forall k :: 0 <= k < i ==> districts[k] == DistrictAccount(t, ids[k])
    {
      imports := imports + [Import(DistrictAccountName(ids[i]), Space(t, ids[i]))];
      districts := districts + [DistrictAccount(t, ids[i])];
    }
  }

  method BuildDmz(t: Topology) returns (exports: seq<string>, dmz: Account)
    requires t.dmz.Some?
    ensures DmzOf(t, dmz)
    ensures StrictBy(exports, (e: string) => e) && forall e :: e in exports <==> IsFrom(Shares(t), e)
  {
    var shares := t.dmz.value.shares;
    var froms: seq<string>, users: seq<UserTemplate> := [], [];
    for n := 0 to |shares|
      invariant forall i, j :: 0 <= i < j < |froms| ==> froms[i] != froms[j]
      invariant forall e :: e in froms <==> IsFrom(shares[..n], e)
      invariant users == Templates(shares[..n])
    {
      var s := shares[n];
      assert shares[..n + 1] == shares[..n] + [s];
      assert shares[..n + 1][..n] == shares[..n];
      FromsStep(shares, n);
      if Complete(s) {
        if s.from.value !in froms {
          froms := froms + [s.from.value];
        }
        users := users + [Template(s)];
      }
    }
    assert shares[..|shares|] == shares;
    exports := SortDistinct(froms);
    dmz := FinishDmz(t, froms, users);
  }

  lemma FromsStep(shares: seq<Share>, n: nat)
    requires n < |shares|
    ensures forall e :: IsFrom(shares[..n + 1], e) <==>
              IsFrom(shares[..n], e) || (Complete(shares[n]) && shares[n].from.value == e)
  {
    assert shares[..n + 1] == shares[..n] + [shares[n]];
    assert shares[n] in shares[..n + 1];
    forall e | IsFrom(shares[..n], e) ensures IsFrom(shares[..n + 1], e) {
      var s :| s in shares[..n] && Complete(s) && s.from.value == e;
      assert s in shares[..n + 1];
    }
  }

  method SortDistinct(s: seq<string>) returns (r: seq<string>)
    requires forall i, j :: 0 <= i < j < |s| ==> s[i] != s[j]
    ensures StrictBy(r, (e: string) => e) && forall e :: e in r <==> e in s
  {
    var id := (e: string) => e;
    r := SortSlice(s, id);
    PermutationDistinct(s, r, id);
    SortedIsStrict(r, id);
    SameMembers(s, r);
  }

  method FinishDmz(t: Topology, froms: seq<string>, users: seq<UserTemplate>) returns (dmz: Account)
    requires forall i, j :: 0 <= i < j < |froms| ==> froms[i] != froms[j]
    requires forall e :: e in froms <==> IsFrom(Shares(t), e)
    requires users == Templates(Shares(t))
    ensures DmzOf(t, dmz)
  {
    var imports := seq(|froms|, i requires 0 <= i < |froms| => Import(CENTRAL_ACCOUNT, froms[i]));
    var bySubject := (m: Import) => m.subject;
    var sorted := SortSlice(imports, bySubject);
    PermutationDistinct(imports, sorted, bySubject);
    SortedIsStrict(sorted, bySubject);
    SameMembers(imports, sorted);
    forall e ensures FromCentral(imports, e) <==> e in froms {
      if e in froms {
        var i :| 0 <= i < |froms| && froms[i] == e;
        assert imports[i] == Import(CENTRAL_ACCOUNT, e);
      }
    }
    var byLabel := SortSlice(users, (u: UserTemplate) => u.user);
    dmz := Account(DMZ_ACCOUNT, true, [], sorted, byLabel);
  }

  // ---- aggregateDMZConsumers (internal/issuance) ----

  /** One external consumer's credential scope. */
  datatype Consumer = Consumer(name: string, subAllow: seq<string>, pubDeny: seq<string>)

  ghost predicate HasUser(users: seq<UserTemplate>, name: string)
  {
    exists u <- users :: u.user == name
  }

  ghost predicate Subscribes(users: seq<UserTemplate>, name: string, subject: string)
  {
    exists u <- users :: u.user == name && subject in u.subscribe
  }

  ghost predicate Denies(users: seq<UserTemplate>, name: string, subject: string)
  {
    exists u <- users :: u.user == name && subject in u.publishDeny
  }

  /** One consumer per user name, in name order, with the sorted union of its templates. */
  ghost predicate AggregateOf(users: seq<UserTemplate>, out: seq<Consumer>)
  {
    && StrictBy(out, (c: Consumer) => c.name)
    && (forall name :: HasUser(users, name) <==> exists c <- out :: c.name == name)
    && forall c <- out :: ScopeOf(users, c)
  }

  ghost predicate ScopeOf(users: seq<UserTemplate>, c: Consumer)
  {
    && (forall i, j :: 0 <= i < j < |c.subAllow| ==> Less(c.subAllow[i], c.subAllow[j]))
    && (forall i, j :: 0 <= i < j < |c.pubDeny| ==> Less(c.pubDeny[i], c.pubDeny[j]))
    && (forall s :: s in c.subAllow <==> Subscribes(users, c.name, s))
    && (forall s :: s in c.pubDeny <==> Denies(users, c.name, s))
  }

  function FindAccount(accounts: seq<Account>, name: string): (r: Option<Account>)
    ensures r.Some? ==> r.value in accounts && r.value.name == name
    ensures r.None? ==> forall a <- accounts :: a.name != name
  {
    if accounts == [] then None
    else if accounts[0].name == name then Some(accounts[0])
    else FindAccount(accounts[1..], name)
  }

  function DmzUsers(m: Model): seq<UserTemplate>
  {
    match FindAccount(m.accounts, DMZ_ACCOUNT)
    case Some(a) => a.users
    case None => []
  }

  function Added(sets: map<string, set<string>>, name: string, values: seq<string>): (r: map<string, set<string>>)
    ensures r.Keys == sets.Keys + {name}
    ensures forall n :: n in sets && n != name ==> r[n] == sets[n]
    ensures forall s :: s in r[name] <==> s in values || (name in sets && s in sets[name])
  {
    sets[name := (if name in sets then sets[name] else {}) + set v | v in values]
  }

  ghost predicate Collected(users: seq<UserTemplate>, subs: map<string, set<string>>, deny: map<string, set<string>>)
  {
    && subs.Keys == deny.Keys
    && (forall name :: name in subs <==> HasUser(users, name))
    && (forall name, s :: name in subs ==> (s in subs[name] <==> Subscribes(users, name, s)))
    && (forall name, s :: name in deny ==> (s in deny[name] <==> Denies(users, name, s)))
  }

  lemma CollectedStep(users: seq<UserTemplate>, u: UserTemplate, subs: map<string, set<string>>,
                      deny: map<string, set<string>>)
    requires Collected(users, subs, deny)
    ensures Collected(users + [u], Added(subs, u.user, u.subscribe), Added(deny, u.user, u.publishDeny))
  {
    hide HasUser, Subscribes, Denies;
    forall name { HasUserStep(users, u, name); }
    forall name, s { SubscribesStep(users, u, name, s); }
    forall name, s { DeniesStep(users, u, name, s); }
  }

  lemma HasUserStep(users: seq<UserTemplate>, u: UserTemplate, name: string)
    ensures HasUser(users + [u], name) <==> HasUser(users, name) || u.user == name
  {
    assert forall x :: x in users + [u] <==> x in users || x == u;
  }

  lemma SubscribesStep(users: seq<UserTemplate>, u: UserTemplate, name: string, s: string)
    ensures Subscribes(users + [u], name, s) <==> Subscribes(users, name, s) || (u.user == name && s in u.subscribe)
    ensures Subscribes(users, name, s) ==> HasUser(users, name)
  {
    assert forall x :: x in users + [u] <==> x in users || x == u;
  }

  lemma DeniesStep(users: seq<UserTemplate>, u: UserTemplate, name: string, s: string)
    ensures Denies(users + [u], name, s) <==> Denies(users, name, s) || (u.user == name && s in u.publishDeny)
    ensures Denies(users, name, s) ==> HasUser(users, name)
  {
    assert forall x :: x in users + [u] <==> x in users || x == u;
  }

  method AggregateDMZConsumers(m: Model) returns (out: seq<Consumer>)
    ensures AggregateOf(DmzUsers(m), out)
  {
    var subs, deny := Collect(DmzUsers(m));
    out := SortedConsumers(DmzUsers(m), subs, deny);
  }

  lemma CollectNext(users: seq<UserTemplate>, n: nat, subs: map<string, set<string>>, deny: map<string, set<string>>)
    requires n < |users| && Collected(users[..n], subs, deny)
    ensures Collected(users[..n + 1], Added(subs, users[n].user, users[n].subscribe),
                      Added(deny, users[n].user, users[n].publishDeny))
  {
    hide Collected, Added;
    CollectedStep(users[..n], users[n], subs, deny);
    assert users[..n + 1] == users[..n] + [users[n]];
  }

  method Collect(users: seq<UserTemplate>) returns (subs: map<string, set<string>>, deny: map<string, set<string>>)
    ensures Collected(users, subs, deny)
  {
    subs, deny := map[], map[];
    assert Collected(users[..0], subs, deny);
    hide Collected, Added;
    for n := 0 to |users|
      invariant Collected(users[..n], subs, deny)
    {
      CollectNext(users, n, subs, deny);
      subs := Added(subs, users[n].user, users[n].subscribe);
      deny := Added(deny, users[n].user, users[n].publishDeny);
    }
    assert users[..|users|] == users;
  }

  method SortedConsumers(users: seq<UserTemplate>, subs: map<string, set<string>>, deny: map<string, set<string>>)
    returns (out: seq<Consumer>)
    requires Collected(users, subs, deny)
    ensures AggregateOf(users, out)
  {
    hide Less, Subscribes, Denies, HasUser;
    var names := SortedKeys(subs.Keys);
    out := [];
    for i := 0 to |names|
      invariant |out| == i && forall k :: 0 <= k < i ==> out[k].name == names[k] && ScopeOf(users, out[k])
    {
      assert names[i] in subs;
      var subAllow := SortedKeys(subs[names[i]]);
      var pubDeny := SortedKeys(deny[names[i]]);
      var c := Consumer(names[i], subAllow, pubDeny);
      assert ScopeOf(users, c);
      out := out + [c];
    }
    hide ScopeOf;
    AllNamed(users, names, out);
  }

  lemma AllNamed(users: seq<UserTemplate>, names: seq<string>, out: seq<Consumer>)
    requires |out| == |names| && forall k :: 0 <= k < |out| ==> out[k].name == names[k] && ScopeOf(users, out[k])
    requires forall i, j :: 0 <= i < j < |names| ==> Less(names[i], names[j])
    requires forall name :: name in names <==> HasUser(users, name)
    ensures AggregateOf(users, out)
  {
    hide ScopeOf, Less, HasUser;
    forall name ensures HasUser(users, name) <==> exists c <- out :: c.name == name {
      if name in names {
        var i :| 0 <= i < |names| && names[i] == name;
        assert out[i] in out;
      }
      if c :| c in out && c.name == name {
        var i :| 0 <= i < |out| && out[i] == c;
        assert names[i] in names;
      }
    }
  }

  /** Account names are also seed file names: two accounts of one name would share their keys. */
  ghost predicate DistinctNames(accounts: seq<Account>)
  {
    forall i, j :: 0 <= i < j < |accounts| ==> accounts[i].name != accounts[j].name
  }

  // ---- what a consumer may read ----

  lemma NamesApart(d: string)
    ensures DistrictAccountName(d) != CENTRAL_ACCOUNT && DistrictAccountName(d) != DMZ_ACCOUNT
    ensures DistrictAccountName(d) != SYSTEM_ACCOUNT
  {
    assert DistrictAccountName(d)[1] == 'I';
  }

  function AccountName(a: Account): string { a.name }

  lemma PartAt(t: Topology, ids: seq<string>, central: Account, dmz: seq<Account>, i: nat)
    requires (forall d <- ids :: d in t.district) && i < |Parted(t, ids, central, dmz)|
    ensures var all := Parted(t, ids, central, dmz);
            && all[i] in all
            && (i == 0 ==> all[i] == central)
            && (0 < i <= |ids| ==> all[i] == DistrictAccount(t, ids[i - 1]))
            && (i == |ids| + 1 ==> all[i] == SYSTEM)
            && (i > |ids| + 1 ==> all[i] == dmz[i - |ids| - 2])
  {
    hide DistrictAccount;
  }

  /** The place of an account's name in the list, by kind. */
  lemma PartNames(t: Topology, ids: seq<string>, central: Account, dmz: seq<Account>, i: nat)
    requires Parts(t, ids, central, dmz) && i < |Parted(t, ids, central, dmz)|
    ensures var name := Parted(t, ids, central, dmz)[i].name;
            && (i == 0 ==> name == CENTRAL_ACCOUNT)
            && (0 < i <= |ids| ==> name == DistrictAccountName(ids[i - 1]))
            && (i == |ids| + 1 ==> name == SYSTEM_ACCOUNT)
            && (i > |ids| + 1 ==> i == |ids| + 2 && name == DMZ_ACCOUNT)
  {
    hide Parted, DistrictAccountName, Space;
    PartAt(t, ids, central, dmz, i);
  }

  lemma FixedNamesDiffer()
    ensures CENTRAL_ACCOUNT != SYSTEM_ACCOUNT && CENTRAL_ACCOUNT != DMZ_ACCOUNT && SYSTEM_ACCOUNT != DMZ_ACCOUNT
  {
    assert CENTRAL_ACCOUNT[0] == 'C' && SYSTEM_ACCOUNT[0] == 'S' && DMZ_ACCOUNT[0] == 'D';
  }

  lemma PartsDistinct(t: Topology, ids: seq<string>, central: Account, dmz: seq<Account>)
    requires Validate(t) && Parts(t, ids, central, dmz)
    ensures DistinctKeys(Parted(t, ids, central, dmz), AccountName)
  {
    hide Parted, DistrictAccountName, Validate, CentralOf, DmzOf;
    var all := Parted(t, ids, central, dmz);
    forall i, j | 0 <= i < j < |all| ensures AccountName(all[i]) != AccountName(all[j]) {
      PartNames(t, ids, central, dmz, i);
      PartNames(t, ids, central, dmz, j);
      FixedNamesDiffer();
      PartAt(t, ids, central, dmz, j);
      if 0 < i <= |ids| { NamesApart(ids[i - 1]); }
      if j <= |ids| {
        NamesApart(ids[j - 1]);
        if 0 < i { DistrictNamesDiffer(t, ids, i - 1, j - 1); }
      }
    }
  }

  lemma DistrictNamesDiffer(t: Topology, ids: seq<string>, i: nat, j: nat)
    requires Validate(t) && i < j < |ids| && Less(ids[i], ids[j]) && ids[i] in t.district && ids[j] in t.district
    ensures DistrictAccountName(ids[i]) != DistrictAccountName(ids[j])
  {
    LessIrreflexive(ids[i], ids[j]);
    assert ValidDistrict(t.dot, ids[i], t.district[ids[i]]) && ValidDistrict(t.dot, ids[j], t.district[ids[j]]);
    var head := "DISTRICT_";
    if DistrictAccountName(ids[i]) == DistrictAccountName(ids[j]) {
      assert DistrictAccountName(ids[i])[|head|..] == Sanitize(ids[i]);
      assert DistrictAccountName(ids[j])[|head|..] == Sanitize(ids[j]);
      SanitizeInjective(ids[i], ids[j]);
    }
  }

  /** No two accounts of a validated topology share a name. */
  lemma NamesAreDistinct(t: Topology, m: Model)
    requires Validate(t) && ModelOf(t, m)
    ensures DistinctNames(m.accounts)
  {
    hide Validate, Parts, Parted;
    var ids, central, dmz :|
        Parts(t, ids, central, dmz) && multiset(m.accounts) == multiset(Parted(t, ids, central, dmz));
    PartsDistinct(t, ids, central, dmz);
    PermutationDistinct(Parted(t, ids, central, dmz), m.accounts, AccountName);
    forall i, j | 0 <= i < j < |m.accounts| ensures m.accounts[i].name != m.accounts[j].name {
      assert AccountName(m.accounts[i]) != AccountName(m.accounts[j]);
    }
  }

  ghost predicate Exported(accounts: seq<Account>, im: Import)
  {
    exists b <- accounts :: b.name == im.fromAccount && im.subject in b.exports
  }

  /** Whatever an account imports, the account named exports. */
  lemma ImportsAreExported(t: Topology, m: Model, a: Account, im: Import)
    requires ModelOf(t, m) && a in m.accounts && im in a.imports
    ensures Exported(m.accounts, im)
  {
    hide Parts, Parted;
    var ids, central, dmz :|
        Parts(t, ids, central, dmz) && multiset(m.accounts) == multiset(Parted(t, ids, central, dmz));
    SameMembers(m.accounts, Parted(t, ids, central, dmz));
    PartsExport(t, ids, central, dmz, a, im);
    var b :| b in Parted(t, ids, central, dmz) && b.name == im.fromAccount && im.subject in b.exports;
    assert b in m.accounts;
  }

  lemma PartsExport(t: Topology, ids: seq<string>, central: Account, dmz: seq<Account>, a: Account, im: Import)
    requires Parts(t, ids, central, dmz) && a in Parted(t, ids, central, dmz) && im in a.imports
    ensures Exported(Parted(t, ids, central, dmz), im)
  {
    hide Parted, Space, DistrictAccountName;
    var all := Parted(t, ids, central, dmz);
    var k :| 0 <= k < |all| && all[k] == a;
    PartAt(t, ids, central, dmz, k);
    PartAt(t, ids, central, dmz, 0);
    if k == 0 {
      var i :| 0 <= i < |central.imports| && central.imports[i] == im;
      PartAt(t, ids, central, dmz, i + 1);
    } else {
      assert FromCentral(a.imports, im.subject);
    }
  }

  // ---- the order of CENTRAL's imports ----

  /** Sorted by account, and by subject within one account. */
  ghost predicate OrderedByAccount(imports: seq<Import>)
  {
    forall i, j :: 0 <= i < j < |imports| ==>
      || Less(imports[i].fromAccount, imports[j].fromAccount)
      || (imports[i].fromAccount == imports[j].fromAccount && !Less(imports[j].subject, imports[i].subject))
  }

  /** The two ids first differ where one of them has a dash. */
  predicate DashFirst(d: string, e: string)
  {
    d != [] && e != [] && if d[0] == e[0] then DashFirst(d[1..], e[1..]) else d[0] == '-' || e[0] == '-'
  }

  predicate IdChars(s: string) { forall c <- s :: IdStart(c) || c == '-' }

  /** Sanitizing turns a dash from the least character into the greatest, and keeps all else in order. */
  lemma {:induction false} SanitizeOrder(d: string, e: string)
    requires IdChars(d) && IdChars(e) && Less(d, e)
    ensures Less(Sanitize(d), Sanitize(e)) <==> !DashFirst(d, e)
  {
    if d != [] {
      assert d[0] in d && e[0] in e;
      assert Sanitize(d)[1..] == Sanitize(d[1..]) && Sanitize(e)[1..] == Sanitize(e[1..]);
      if d[0] == e[0] {
        assert forall c :: c in d[1..] ==> c in d;
        assert forall c :: c in e[1..] ==> c in e;
        SanitizeOrder(d[1..], e[1..]);
      }
    }
  }

  lemma {:induction false} DashSymmetric(d: string, e: string)
    ensures DashFirst(d, e) <==> DashFirst(e, d)
  {
    if d != [] && e != [] && d[0] == e[0] { DashSymmetric(d[1..], e[1..]); }
  }

  lemma AccountOrder(t: Topology, ids: seq<string>, i: nat, j: nat)
    requires Validate(t) && i < j < |ids| && Less(ids[i], ids[j]) && ids[i] in t.district && ids[j] in t.district
    ensures Less(DistrictAccountName(ids[i]), DistrictAccountName(ids[j])) <==> !DashFirst(ids[i], ids[j])
    ensures DistrictAccountName(ids[i]) != DistrictAccountName(ids[j])
  {
    DistrictNamesDiffer(t, ids, i, j);
    assert ValidDistrict(t.dot, ids[i], t.district[ids[i]]) && ValidDistrict(t.dot, ids[j], t.district[ids[j]]);
    SanitizeOrder(ids[i], ids[j]);
    LessPrefix("DISTRICT_", Sanitize(ids[i]), Sanitize(ids[j]));
  }

  /** Build lists CENTRAL's imports by district id; that is by account exactly if no dash comes first. */
  lemma CentralImportsOrdered(t: Topology, m: Model, a: Account)
    requires Validate(t) && ModelOf(t, m) && a in m.accounts && a.name == CENTRAL_ACCOUNT
    ensures OrderedByAccount(a.imports) <==> !exists d, e :: d in t.district && e in t.district && DashFirst(d, e)
  {
    hide Parts, Parted, Validate;
    var ids, central, dmz :|
        Parts(t, ids, central, dmz) && multiset(m.accounts) == multiset(Parted(t, ids, central, dmz));
    SameMembers(m.accounts, Parted(t, ids, central, dmz));
    CentralIs(t, ids, central, dmz, a);
    ImportsByDistrict(t, ids, central, dmz);
  }

  lemma CentralIs(t: Topology, ids: seq<string>, central: Account, dmz: seq<Account>, a: Account)
    requires Parts(t, ids, central, dmz) && a in Parted(t, ids, central, dmz) && a.name == CENTRAL_ACCOUNT
    ensures a == central
  {
    hide Parted, DistrictAccountName, CentralOf, DmzOf;
    var k :| 0 <= k < |Parted(t, ids, central, dmz)| && Parted(t, ids, central, dmz)[k] == a;
    PartNames(t, ids, central, dmz, k);
    PartAt(t, ids, central, dmz, k);
    FixedNamesDiffer();
    if 0 < k <= |ids| { NamesApart(ids[k - 1]); }
  }

  lemma ImportsByDistrict(t: Topology, ids: seq<string>, central: Account, dmz: seq<Account>)
    requires Validate(t) && Parts(t, ids, central, dmz)
    ensures OrderedByAccount(central.imports) <==> !exists d, e :: d in t.district && e in t.district && DashFirst(d, e)
  {
    hide Validate, DistrictAccountName, Space, DashFirst, DmzOf;
    forall i, j | 0 <= i < j < |ids|
      ensures Less(DistrictAccountName(ids[i]), DistrictAccountName(ids[j])) <==> !DashFirst(ids[i], ids[j])
      ensures central.imports[i].fromAccount != central.imports[j].fromAccount
    {
      AccountOrder(t, ids, i, j);
    }
    if d, e :| d in t.district && e in t.district && DashFirst(d, e) {
      var i :| 0 <= i < |ids| && ids[i] == d;
      var j :| 0 <= j < |ids| && ids[j] == e;
      DashSymmetric(d, e);
      NotDashedItself(d);
      assert DashFirst(ids[if i < j then i else j], ids[if i < j then j else i]);
    }
  }

  lemma {:induction false} NotDashedItself(d: string)
    ensures !DashFirst(d, d)
  {
    if d != [] { NotDashedItself(d[1..]); }
  }

  lemma {:induction false} DashAfter(p: string, d: string, e: string)
    requires d != [] && e != [] && d[0] != e[0] && d[0] == '-'
    ensures DashFirst(p + d, p + e)
  {
    if p == [] {
      assert p + d == d && p + e == e;
    } else {
      assert (p + d)[1..] == p[1..] + d && (p + e)[1..] == p[1..] + e;
      DashAfter(p[1..], d, e);
    }
  }

  /** Every district has its account in the model. */
  lemma DistrictHasAccount(t: Topology, m: Model, d: string)
    requires ModelOf(t, m) && d in t.district
    ensures FindAccount(m.accounts, DistrictAccountName(d)).Some?
  {
    hide Parted, Parts, DistrictAccountName, Space;
    var ids, central, dmz :|
        Parts(t, ids, central, dmz) && multiset(m.accounts) == multiset(Parted(t, ids, central, dmz));
    SameMembers(m.accounts, Parted(t, ids, central, dmz));
    var i := DistrictAt(t, ids, central, dmz, d);
    assert Parted(t, ids, central, dmz)[i] in m.accounts;
  }

  lemma DistrictAt(t: Topology, ids: seq<string>, central: Account, dmz: seq<Account>, d: string) returns (i: nat)
    requires Parts(t, ids, central, dmz) && d in t.district
    ensures i < |Parted(t, ids, central, dmz)| && Parted(t, ids, central, dmz)[i] == DistrictAccount(t, d)
    ensures Parted(t, ids, central, dmz)[i] in Parted(t, ids, central, dmz)
  {
    hide Parted, DistrictAccount, CentralOf, DmzOf;
    var k :| 0 <= k < |ids| && ids[k] == d;
    i := k + 1;
    PartAt(t, ids, central, dmz, i);
  }

  /** The users of the DMZ account are the templates of the shares, in some order. */
  lemma DmzUsersAreShares(t: Topology, m: Model)
    requires ModelOf(t, m)
    ensures multiset(DmzUsers(m)) == multiset(Templates(Shares(t)))
  {
    hide Parts;
    var ids, central, dmz :| Parts(t, ids, central, dmz)
      && multiset(m.accounts) == multiset(Parted(t, ids, central, dmz));
    SameMembers(m.accounts, Parted(t, ids, central, dmz));
    DmzAmong(t, m, ids, central, dmz);
  }

  lemma DmzAmong(t: Topology, m: Model, ids: seq<string>, central: Account, dmz: seq<Account>)
    requires Parts(t, ids, central, dmz)
    requires forall a :: a in m.accounts <==> a in Parted(t, ids, central, dmz)
    ensures multiset(DmzUsers(m)) == multiset(Templates(Shares(t)))
  {
    forall i | 0 <= i < |ids| ensures DistrictAccounts(t, ids)[i].name != DMZ_ACCOUNT {
      NamesApart(ids[i]);
    }
    var found := FindAccount(m.accounts, DMZ_ACCOUNT);
    assert found.Some? ==> found.value in dmz;
    if t.dmz.Some? {
      assert dmz[0] in m.accounts && dmz[0].name == DMZ_ACCOUNT;
      assert found.value == dmz[0];
    } else {
      assert found.None?;
    }
  }

  lemma {:induction false} TemplatesOfShares(shares: seq<Share>, u: UserTemplate)
    ensures u in Templates(shares) <==> exists s <- shares :: Complete(s) && Template(s) == u
  {
    if shares != [] {
      var front, s := shares[..|shares| - 1], shares[|shares| - 1];
      TemplatesOfShares(front, u);
      assert shares == front + [s];
      if Complete(s) && Template(s) == u { assert s in shares; }
      if u in Templates(front) {
        var x :| x in front && Complete(x) && Template(x) == u;
        assert x in shares;
      }
    }
  }

  ghost predicate Granted(t: Topology, consumer: string, subject: string)
  {
    exists s <- Shares(t) :: Complete(s) && s.consumer.value == consumer && s.public.value == subject
  }

  /** Every consumer's scope is the set of its own public subjects, whatever order the users came in. */
  lemma ConsumerScope(t: Topology, m: Model, out: seq<Consumer>, c: Consumer, subject: string)
    requires ModelOf(t, m) && AggregateOf(DmzUsers(m), out) && c in out
    ensures subject in c.subAllow <==> Granted(t, c.name, subject)
    ensures c.pubDeny == [">"]
  {
    var users := DmzUsers(m);
    DmzUsersAreShares(t, m);
    SameMembers(users, Templates(Shares(t)));
    assert ScopeOf(users, c) && HasUser(users, c.name);
    hide ModelOf, AggregateOf;
    SubscribesIsGranted(t, users, c.name, subject);
    var u :| u in users && u.user == c.name;
    TemplatesOfShares(Shares(t), u);
    forall x ensures x in c.pubDeny <==> x == ">" {
      if Denies(users, c.name, x) {
        var w :| w in users && w.user == c.name && x in w.publishDeny;
        TemplatesOfShares(Shares(t), w);
      }
    }
    OnlyMember(c.pubDeny, ">");
  }

  lemma SubscribesIsGranted(t: Topology, users: seq<UserTemplate>, name: string, subject: string)
    requires forall u :: u in users <==> u in Templates(Shares(t))
    ensures Subscribes(users, name, subject) <==> Granted(t, name, subject)
  {
    if Subscribes(users, name, subject) {
      var u :| u in users && u.user == name && subject in u.subscribe;
      TemplatesOfShares(Shares(t), u);
    }
    if Granted(t, name, subject) {
      var s :| s in Shares(t) && Complete(s) && s.consumer.value == name && s.public.value == subject;
      TemplatesOfShares(Shares(t), Template(s));
      assert Template(s) in users;
    }
  }

  lemma OnlyMember(s: seq<string>, x: string)
    requires forall i, j :: 0 <= i < j < |s| ==> Less(s[i], s[j])
    requires forall y :: y in s <==> y == x
    ensures s == [x]
  {
    assert x in s;
    assert s[0] in s;
    if |s| > 1 {
      assert s[1] in s;
      LessIrreflexive(s[0], s[1]);
    }
  }

  /** Validated, a consumer's scope stays in its own share subtree or in the peer space. */
  lemma ScopeConfined(t: Topology, m: Model, out: seq<Consumer>, c: Consumer, subject: string)
    requires Validate(t) && ModelOf(t, m) && AggregateOf(DmzUsers(m), out) && c in out && subject in c.subAllow
    ensures ValidSubjectString(subject)
    ensures UnderPrefix(subject, ShareSpace(t.dot) + c.name + ".>")
              || (PeerSpace(t.dot) <= subject && !(ShareSpace(t.dot) <= subject))
  {
    ConsumerScope(t, m, out, c, subject);
    hide ModelOf, AggregateOf;
    var s :| s in Shares(t) && Complete(s) && s.consumer.value == c.name && s.public.value == subject;
    assert ValidShare(t.dot, s);
    var prefix := ShareSpace(t.dot) + c.name + ".>";
    assert prefix[..|prefix| - 2] == ShareSpace(t.dot) + c.name;
  }

  lemma TokenIsSplit(s: string)
    requires Token(s)
    ensures Split(s, '.') == [s] && s != "*" && s != ">"
  {
    SplitFree(s, '.');
  }

  lemma SplitDotted(head: string, rest: string)
    requires '.' !in head
    ensures Split(head + "." + rest, '.') == [head] + Split(rest, '.')
  {
    SplitFree(head, '.');
    SplitConcat(head, rest, '.');
  }

  lemma SplitThree(a: string, b: string, c: string, rest: string)
    requires '.' !in a && '.' !in b && '.' !in c
    ensures Split(a + "." + (b + "." + (c + "." + rest)), '.') == [a, b, c] + Split(rest, '.')
  {
    hide Split;
    SplitDotted(a, b + "." + (c + "." + rest));
    SplitDotted(b, c + "." + rest);
    SplitDotted(c, rest);
  }

  lemma ShareSpaceParts(dot: string, rest: string)
    ensures ShareSpace(dot) + rest == "vikasa" + "." + (dot + "." + ("share" + "." + rest))
  {
  }

  lemma PeerSpaceParts(dot: string, rest: string)
    ensures PeerSpace(dot) + rest == "vikasa" + "." + ("peer" + "." + (dot + "." + rest))
  {
  }

  lemma ShareTokens(dot: string, consumer: string, subject: string)
    requires Token(dot) && Token(consumer) && UnderPrefix(subject, ShareSpace(dot) + consumer + ".>")
    ensures var s := Split(subject, '.');
            |s| > 4 && s[0] == "vikasa" && s[1] == dot && s[2] == "share" && s[3] == consumer
  {
    var base := ShareSpace(dot) + consumer;
    ShareSpaceParts(dot, consumer);
    SplitThree("vikasa", dot, "share", consumer);
    TokenIsSplit(consumer);
    hide ShareSpace, Split, UnderPrefix;
    var b := ["vikasa", dot, "share"] + [consumer];
    assert Split(base, '.') == b;
    UnderPrefixTokens(subject, base);
    var s := Split(subject, '.');
    assert forall i :: 0 <= i < 4 ==> s[i] == s[..4][i];
  }

  /** Literal tokens that differ at one place keep two patterns apart. */
  lemma ApartAt(p: seq<string>, q: seq<string>, i: nat)
    requires i < |p| - 1 && i < |q| - 1 && p[i] != q[i] && p[i] != "*" && q[i] != "*"
    ensures Disjoint(p, q)
  {
    forall s: seq<string> | Concrete(s) && Matches(p, s) ensures !Matches(q, s) {
      assert TokenMatches(p[i], s[i]);
      assert Matches(q, s) ==> TokenMatches(q[i], s[i]);
    }
  }

  /** No message reaches two consumers through the share space. */
  lemma SharesDisjoint(t: Topology, m: Model, out: seq<Consumer>, c: Consumer, d: Consumer, x: string, y: string)
    requires Validate(t) && ModelOf(t, m) && AggregateOf(DmzUsers(m), out)
    requires c in out && d in out && c.name != d.name && x in c.subAllow && y in d.subAllow
    requires ShareSpace(t.dot) <= x && ShareSpace(t.dot) <= y
    ensures Disjoint(Split(x, '.'), Split(y, '.'))
  {
    ScopeConfined(t, m, out, c, x);
    ScopeConfined(t, m, out, d, y);
    ConsumerIsToken(t, m, out, c, x);
    ConsumerIsToken(t, m, out, d, y);
    ShareTokens(t.dot, c.name, x);
    ShareTokens(t.dot, d.name, y);
    TokenIsSplit(c.name);
    TokenIsSplit(d.name);
    ApartAt(Split(x, '.'), Split(y, '.'), 3);
  }

  lemma ConsumerIsToken(t: Topology, m: Model, out: seq<Consumer>, c: Consumer, subject: string)
    requires Validate(t) && ModelOf(t, m) && AggregateOf(DmzUsers(m), out) && c in out && subject in c.subAllow
    ensures Token(c.name)
  {
    ConsumerScope(t, m, out, c, subject);
    var s :| s in Shares(t) && Complete(s) && s.consumer.value == c.name && s.public.value == subject;
    assert ValidShare(t.dot, s);
  }

  /** A peer-space grant never reaches into the share space, not even when the dot is named "peer". */
  lemma PeerMissesShares(dot: string, consumer: string, peer: string, share: string)
    requires Token(dot) && Token(consumer) && PeerSpace(dot) <= peer
    requires UnderPrefix(share, ShareSpace(dot) + consumer + ".>")
    ensures Disjoint(Split(peer, '.'), Split(share, '.'))
  {
    ShareTokens(dot, consumer, share);
    var rest := peer[|PeerSpace(dot)|..];
    assert peer == PeerSpace(dot) + rest;
    PeerSpaceParts(dot, rest);
    SplitThree("vikasa", "peer", dot, rest);
    TokenIsSplit(dot);
    hide PeerSpace, ShareSpace, Split, Disjoint;
    var p, q := Split(peer, '.'), Split(share, '.');
    assert p[1] == "peer" && p[2] == dot && |p| > 3;
    assert "peer"[0] != "share"[0];
    assert "peer"[0] == 'p' && "share"[0] == 's' && "*"[0] == '*';
    ApartAt(p, q, if dot != "peer" then 1 else 2);
  }

  /** The default public subject of a share passes the check. */
  lemma DefaultShareIsValid(dot: string, consumer: string, from: string)
    requires Token(dot) && Token(consumer) && ValidSubjectString(from)
    ensures ValidShare(dot, Share(Some(consumer), Some(from), Some(ShareSpace(dot) + consumer + ".>")))
  {
    var public := ShareSpace(dot) + consumer + ".>";
    assert public == ShareSpace(dot) + (consumer + "." + ">");
    ShareSpaceParts(dot, consumer + "." + ">");
    SplitThree("vikasa", dot, "share", consumer + "." + ">");
    SplitDotted(consumer, ">");
    SplitFree(">", '.');
    DefaultTokens(dot, consumer);
    assert ["vikasa", dot, "share"] + ([consumer] + [">"]) == ["vikasa", dot, "share", consumer, ">"];
    assert ValidSubjectString(public);
  }

  lemma DefaultTokens(dot: string, consumer: string)
    requires Token(dot) && Token(consumer)
    ensures WellFormed(["vikasa", dot, "share", consumer, ">"])
  {
    var tokens := ["vikasa", dot, "share", consumer, ">"];
    assert LiteralToken(dot) && LiteralToken(consumer);
    forall i | 0 <= i < |tokens| ensures ValidTokenAt(tokens, i) {
    }
  }
}

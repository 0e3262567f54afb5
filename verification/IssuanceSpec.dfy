/**
  What a run of internal/issuance promises about the bundle it leaves: the trust chain, the keys
  it keeps, and the revocations.
 */
module IssuanceSpec {
  import opened Basics
  import opened Naming
  import opened Topology
  import opened Accounts
  import opened Fleet
  import opened Bundle
  import Sorting
  import Text

  datatype Failure =
    | Stopped
    | RotationWithoutInventory
    | AccountNotInModel
    | DotMismatch
    | CabinetNotInInventory
    | DuplicatePartition
    | PartialCA
    | BadSeed
    | BadArtifact
    | FilterRequired
    | UndefinedPartition
    | FilterOutside
    | AccountMissing
    | UnsafeConsumer
    | NoPublishDeny
    | UnknownImport
    | UnreadableJwt

  datatype RotationSpec = RotationSpec(cabinets: set<string>, operatorSK: bool, accountSK: set<string>)

  /** An account of the model with its keys, as ensureAccounts hands it on. */
  datatype Acct = Acct(def: Account, pub: Key, sk: Key)

  const USER_JWT_VALIDITY := 90 * 24 * 3600

  // ---- what a completed run leaves ----

  ghost predicate OperatorTrusted(f: Files, dot: string)
  {
    var root, sk := KeyAt(f, OperatorRoot), KeyAt(f, OperatorSK);
    root.Good? && sk.Good? && f.operatorJwt == Good(OperatorJwt(root.value, OperatorName(dot), {sk.value}, root.value))
  }

  ghost predicate Keyed(f: Files, a: Acct)
  {
    KeyAt(f, AccountRoot(a.def.name)) == Good(a.pub) && KeyAt(f, AccountSK(a.def.name)) == Good(a.sk)
  }

  ghost predicate ImportsResolved(f: Files, imports: seq<Import>, resolved: seq<JwtImport>)
  {
    && |resolved| == |imports|
    && forall i :: 0 <= i < |imports| ==>
         && resolved[i].subject == imports[i].subject
         && KeyAt(f, AccountRoot(imports[i].fromAccount)) == Good(resolved[i].account)
  }

  ghost predicate JwtOf(f: Files, def: Account, now: int, j: AccountJwt)
  {
    && KeyAt(f, AccountRoot(def.name)) == Good(j.subject)
    && j.name == def.name
    && (exists sk: Key :: KeyAt(f, AccountSK(def.name)) == Good(sk) && j.signingKeys == {sk})
    && j.exports == def.exports
    && ImportsResolved(f, def.imports, j.imports)
    && j.jetStream == def.jetStream
    && RevocationsOf(f.retired, def.name, now, j.revocations)
    && KeyAt(f, OperatorSK) == Good(j.issuer)
  }

  ghost predicate AccountTrusted(f: Files, def: Account, now: int)
  {
    exists j: AccountJwt :: JwtOf(f, def, now, j) && At(f.accountJwt, j.subject) == Good(j)
  }

  /** A user credential signed by its account's signing key and naming the account root. */
  ghost predicate UserTrusted(f: Files, slot: Slot, account: string, j: UserJwt, name: string,
                              perms: Permissions, now: int)
  {
    && KeyAt(f, slot) == Good(j.subject)
    && KeyAt(f, AccountRoot(account)) == Good(j.issuerAccount)
    && KeyAt(f, AccountSK(account)) == Good(j.issuer)
    && j.name == name && j.permissions == perms && j.issuedAt == now && j.expires == now + USER_JWT_VALIDITY
  }

  ghost predicate CabinetTrusted(f: Files, c: Cabinet, district: string, now: int)
  {
    var p := CabinetPath(district, c.id);
    && At(f.creds, p).Good?
    && UserTrusted(f, CabinetUser(p), AccountOf(p), f.creds[p].value, c.id, Permissions([c.filter], [], [c.filter]),
                   now)
    && At(f.leaf, p).Good? && At(f.cert, p).Good?
    && f.cert[p].value.commonName == c.id && f.cert[p].value.leaf == f.leaf[p].value
    && f.caKey == Good(f.cert[p].value.issuer)
  }

  lemma TrustedFiles(f: Files, c: Cabinet, district: string, now: int)
    requires CabinetTrusted(f, c, district, now)
    ensures var p := CabinetPath(district, c.id);
            && At(f.creds, p).Good? && KeyAt(f, CabinetUser(p)) == Good(f.creds[p].value.subject)
            && At(f.leaf, p).Good? && At(f.cert, p).Good?
  {
  }

  ghost predicate ConsumerTrusted(f: Files, c: Consumer, now: int)
  {
    && At(f.consumerCreds, c.name).Good?
    && UserTrusted(f, ConsumerUser(c.name), DMZ_ACCOUNT, f.consumerCreds[c.name].value, c.name,
                   Permissions([], c.pubDeny, c.subAllow), now)
  }

  // ---- the logs of signing keys ----

  /** The log gained a record of this time for each of these keys, and no other. */
  ghost predicate OperatorSKsLogged(before: seq<RetiredSK>, after: seq<RetiredSK>, keys: set<Key>, now: int)
  {
    && before <= after
    && forall r :: r in after[|before|..] <==> r.oldPub in keys && r.rotatedAt == now
  }

  ghost predicate AccountSKsLogged(before: seq<RetiredAccountSK>, after: seq<RetiredAccountSK>, account: string,
                                   keys: set<Key>, now: int)
  {
    && before <= after
    && forall r :: r in after[|before|..] <==> r.account == account && r.oldPub in keys && r.rotatedAt == now
  }

  lemma NoSKLogged(f: Files, account: string, keys: set<Key>, now: int)
    ensures OperatorSKsLogged(f.retiredOperatorSK, f.retiredOperatorSK, keys - keys, now)
    ensures AccountSKsLogged(f.retiredAccountSK, f.retiredAccountSK, account, keys - keys, now)
  {
  }

  lemma OneLess(keys: set<Key>, todo: set<Key>, k: Key)
    requires k in todo && todo <= keys
    ensures keys - todo + {k} == keys - (todo - {k}) && |todo - {k}| == |todo| - 1
  {
  }

  lemma OperatorSKsOnRecord(f: Files, g: Files, keys: set<Key>, now: int)
    requires OperatorSKsLogged(f.retiredOperatorSK, g.retiredOperatorSK, keys, now)
    requires forall k: Key :: OperatorDeclares(g, k) ==> k in keys
    ensures MayReplace(g, OperatorSK)
  {
    forall k: Key | OperatorDeclares(g, k) ensures OperatorLogged(g.retiredOperatorSK, k) {
      assert RetiredSK(k, now) in g.retiredOperatorSK[|f.retiredOperatorSK|..];
    }
  }

  lemma AccountSKsOnRecord(f: Files, g: Files, account: string, keys: set<Key>, now: int)
    requires AccountSKsLogged(f.retiredAccountSK, g.retiredAccountSK, account, keys, now)
    requires forall k: Key :: AccountDeclares(g, account, k) ==> k in keys
    ensures MayReplace(g, AccountSK(account))
  {
    forall k: Key | AccountDeclares(g, account, k) ensures AccountLogged(g.retiredAccountSK, account, k) {
      assert RetiredAccountSK(account, k, now) in g.retiredAccountSK[|f.retiredAccountSK|..];
    }
  }

  lemma OperatorSKNext(before: seq<RetiredSK>, after: seq<RetiredSK>, keys: set<Key>, now: int, r: RetiredSK)
    requires OperatorSKsLogged(before, after, keys, now) && r.rotatedAt == now
    ensures OperatorSKsLogged(before, after + [r], keys + {r.oldPub}, now)
  {
    assert (after + [r])[|before|..] == after[|before|..] + [r];
  }

  lemma AccountSKNext(before: seq<RetiredAccountSK>, after: seq<RetiredAccountSK>, account: string, keys: set<Key>,
                      now: int, r: RetiredAccountSK)
    requires AccountSKsLogged(before, after, account, keys, now) && r.rotatedAt == now && r.account == account
    ensures AccountSKsLogged(before, after + [r], account, keys + {r.oldPub}, now)
  {
    assert (after + [r])[|before|..] == after[|before|..] + [r];
  }

  // ---- frames ----

  ghost predicate SameKeysBut(f: Files, g: Files, slots: set<Slot>)
  {
    forall s :: s !in slots ==> KeyAt(g, s) == KeyAt(f, s)
  }

  /** Only what belongs to one cabinet has changed, and the log gained only its records. */
  ghost predicate CabinetFrame(f: Files, g: Files, p: CabinetPath)
  {
    && g == f.(keys := g.keys, creds := g.creds, leaf := g.leaf, cert := g.cert, retired := g.retired)
    && SameKeysBut(f, g, {CabinetUser(p)})
    && (forall q :: q != p ==>
        At(g.creds, q) == At(f.creds, q) && At(g.leaf, q) == At(f.leaf, q) && At(g.cert, q) == At(f.cert, q))
  }

  /** The records a log gained are about keys minted for the cabinets at `paths`. */
  ghost predicate Gained(f: Files, g: Files, past: Past, paths: set<CabinetPath>)
  {
    && f.retired <= g.retired
    && forall i :: |f.retired| <= i < |g.retired| && g.retired[i].oldUserPub.Some? ==>
         var k := g.retired[i].oldUserPub.value;
         k in past.minted && past.minted[k].CabinetUser? && past.minted[k].path in paths
  }

  /** Which slots a rotation names. */
  predicate Targeted(spec: RotationSpec, s: Slot)
  {
    match s
    case OperatorSK => spec.operatorSK
    case AccountSK(a) => a in spec.accountSK
    case CabinetUser(p) => p.id in spec.cabinets
    case _ => false
  }

  /** Seed files that exist and are not named by the rotation keep their key. */
  ghost predicate SeedsKept(f: Files, g: Files, spec: RotationSpec)
  {
    forall s :: KeyAt(f, s) != Missing && !Targeted(spec, s) ==> KeyAt(g, s) == KeyAt(f, s)
  }

  /** So do the leaf key files of cabinets that are not rotated. */
  ghost predicate LeavesKept(f: Files, g: Files, rotated: set<string>)
  {
    forall p :: At(f.leaf, p) != Missing && p.id !in rotated ==> At(g.leaf, p) == At(f.leaf, p)
  }

  /** The CA is never replaced. */
  ghost predicate CAKept(f: Files, g: Files)
  {
    && (f.caCert != Missing ==> g.caCert == f.caCert)
    && (f.caKey != Missing ==> g.caKey == f.caKey)
  }

  /** Mint once: a key that is there stays, unless the rotation names it. */
  ghost predicate Kept(f: Files, g: Files, spec: RotationSpec)
  {
    SeedsKept(f, g, spec) && LeavesKept(f, g, spec.cabinets) && CAKept(f, g)
  }

  /** One record of the log says what the cabinet's credential and certificate were in f, and when they went. */
  ghost predicate OnRecord(f: Files, g: Files, p: CabinetPath, now: int)
  {
    exists r :: r in g.retired
      && r.cabinet == p.id && r.district == p.district && r.account == AccountOf(p) && r.rotatedAt == Some(now)
      && (At(f.creds, p).Good? ==> r.oldUserPub == Some(f.creds[p].value.subject))
      && (At(f.cert, p).Good? ==> r.oldCertSerial == Some(f.cert[p].value.serial))
  }

  lemma OnRecordStays(f: Files, g: Files, h: Files, p: CabinetPath, now: int)
    requires OnRecord(f, g, p, now) && g.retired <= h.retired
    ensures OnRecord(f, h, p, now)
  {
    assert forall r :: r in g.retired ==> r in h.retired;
  }

  predicate Retirable(f: Files, p: CabinetPath) { At(f.creds, p).Good? || At(f.cert, p).Good? }

  ghost predicate SameArtifacts(f: Files, g: Files, p: CabinetPath)
  {
    At(g.creds, p) == At(f.creds, p) && At(g.cert, p) == At(f.cert, p)
  }

  /**
    Every record the log gained carries the time of the run; and a credential or certificate that a
    rotation replaced is on record, however far the run came.
   */
  ghost predicate Stamped(f: Files, g: Files, rotated: set<string>, now: int)
  {
    && f.retired <= g.retired
    && (forall i :: |f.retired| <= i < |g.retired| ==> g.retired[i].rotatedAt == Some(now))
    && forall p: CabinetPath :: p.id in rotated && Retirable(f, p) && !SameArtifacts(f, g, p) ==> OnRecord(f, g, p, now)
  }

  lemma StampedRefl(f: Files, rotated: set<string>, now: int)
    ensures Stamped(f, f, rotated, now)
  {
  }

  lemma StampedTrans(f: Files, g: Files, h: Files, rotated: set<string>, now: int)
    requires Stamped(f, g, rotated, now) && Stamped(g, h, rotated, now)
    ensures Stamped(f, h, rotated, now)
  {
    forall i | |f.retired| <= i < |h.retired| ensures h.retired[i].rotatedAt == Some(now) {
      if i < |g.retired| { assert h.retired[i] == g.retired[i]; }
    }
    forall p: CabinetPath | p.id in rotated && Retirable(f, p) && !SameArtifacts(f, h, p)
      ensures OnRecord(f, h, p, now)
    {
      if SameArtifacts(f, g, p) {
        assert OnRecord(g, h, p, now);
      } else {
        assert forall r :: r in g.retired ==> r in h.retired;
      }
    }
  }

  /** The record first, then the cabinet's files. */
  lemma StampedMint(f: Files, f1: Files, g: Files, p: CabinetPath, rotating: bool, now: int)
    requires Stamped(f, f1, {}, now) && g.retired == f1.retired && CabinetFrame(f, g, p)
    requires rotating && Retirable(f, p) ==> OnRecord(f, f1, p, now)
    ensures Stamped(f, g, if rotating then {p.id} else {}, now)
    ensures rotating && Retirable(f, p) ==> OnRecord(f, g, p, now)
  {
    if rotating && Retirable(f, p) { OnRecordStays(f, f1, g, p, now); }
    hide OnRecord;
  }

  /** Where the artifacts are as they were, it does not matter what was to be rotated. */
  lemma StampedWide(f: Files, g: Files, p: CabinetPath, now: int)
    requires Stamped(f, g, {}, now) && g == f.(retired := g.retired)
    ensures Stamped(f, g, {p.id}, now)
  {
    hide OnRecord;
  }

  /** One cabinet's turn. */
  lemma StampedTurn(f: Files, g: Files, p: CabinetPath, rotated: set<string>, now: int)
    requires CabinetFrame(f, g, p) && Stamped(f, g, if p.id in rotated then {p.id} else {}, now)
    ensures Stamped(f, g, rotated, now)
  {
    hide OnRecord;
  }

  /** From f to g only the cabinets at `paths` were minted. */
  ghost predicate Minted(f: Files, g: Files, past: Past, paths: set<CabinetPath>)
  {
    && g == f.(keys := g.keys, creds := g.creds, leaf := g.leaf, cert := g.cert, retired := g.retired)
    && (forall s :: KeyAt(g, s) != KeyAt(f, s) ==> s.CabinetUser? && s.path in paths)
    && (forall q :: q !in paths ==>
        At(g.creds, q) == At(f.creds, q) && At(g.leaf, q) == At(f.leaf, q) && At(g.cert, q) == At(f.cert, q))
    && Gained(f, g, past, paths)
  }

  /** What is on record about a cabinet's current key: nothing, or, for a key that was kept, what there was. */
  ghost predicate RecordsExactly(f: Files, g: Files, p: CabinetPath, rotating: bool)
  {
    exists u: Key :: KeyAt(g, CabinetUser(p)) == Good(u)
      && RecordsOf(g.retired, AccountOf(p), u) ==
           if !rotating && KeyAt(f, CabinetUser(p)) == Good(u) then RecordsOf(f.retired, AccountOf(p), u) else {}
  }

  lemma LoggedIsRecorded(log: seq<RetiredRecord>, account: string, k: Key)
    ensures Logged(log, account, k) <==> RecordsOf(log, account, k) != {}
  {
    if r :| r in log && r.account == account && r.oldUserPub == Some(k) {
      assert r in RecordsOf(log, account, k);
    }
  }

  lemma KeptTrans(f: Files, g: Files, h: Files, spec: RotationSpec)
    requires Kept(f, g, spec) && Kept(g, h, spec)
    ensures Kept(f, h, spec)
  {
  }

  /** Records about keys of other cabinets do not touch this one. */
  lemma RecordsElsewhere(f: Files, g: Files, past: Past, paths: set<CabinetPath>, account: string, u: Key,
                         p: CabinetPath)
    requires Gained(f, g, past, paths) && p !in paths && u in past.minted && past.minted[u] == CabinetUser(p)
    ensures RecordsOf(g.retired, account, u) == RecordsOf(f.retired, account, u)
  {
    forall r ensures r in RecordsOf(g.retired, account, u) <==> r in RecordsOf(f.retired, account, u) {
      if r in RecordsOf(f.retired, account, u) { assert r in g.retired; }
      if r in RecordsOf(g.retired, account, u) {
        var i :| 0 <= i < |g.retired| && g.retired[i] == r;
        assert i < |f.retired|;
        assert f.retired[i] == r;
      }
    }
  }

  lemma MintedStep(f: Files, g: Files, h: Files, before: Past, after: Past, paths: set<CabinetPath>, p: CabinetPath)
    requires Minted(f, g, before, paths) && CabinetFrame(g, h, p) && Gained(g, h, after, {p})
    requires Grown(before, after)
    ensures Minted(f, h, after, paths + {p})
  {
    forall i | |f.retired| <= i < |h.retired| && h.retired[i].oldUserPub.Some?
      ensures var k := h.retired[i].oldUserPub.value;
              k in after.minted && after.minted[k].CabinetUser? && after.minted[k].path in paths + {p}
    {
      if i < |g.retired| { assert g.retired[i] == h.retired[i]; }
    }
  }

  /** What one mint says about its own cabinet, told from the start of the phase. */
  lemma ExactFromStart(f: Files, g: Files, h: Files, m: Moment, paths: set<CabinetPath>, p: CabinetPath, rotating: bool)
    requires m.files == g && Inv(m) && Minted(f, g, m.past, paths) && p !in paths
    requires RecordsExactly(g, h, p, rotating)
    ensures RecordsExactly(f, h, p, rotating)
  {
    assert KeyAt(g, CabinetUser(p)) == KeyAt(f, CabinetUser(p));
    var u := KeyAt(h, CabinetUser(p)).value;
    if KeyAt(g, CabinetUser(p)) == Good(u) {
      KeyOwned(m, CabinetUser(p));
      RecordsElsewhere(f, g, m.past, paths, AccountOf(p), u, p);
    }
  }

  /** A later mint of another cabinet leaves it as it was. */
  lemma ExactStays(f: Files, g: Files, h: Files, m: Moment, p: CabinetPath, q: CabinetPath, rotating: bool)
    requires m.files == h && Inv(m) && CabinetFrame(g, h, q) && Gained(g, h, m.past, {q}) && p != q
    requires RecordsExactly(f, g, p, rotating)
    ensures RecordsExactly(f, h, p, rotating)
  {
    assert KeyAt(h, CabinetUser(p)) == KeyAt(g, CabinetUser(p));
    KeyOwned(m, CabinetUser(p));
    var u := KeyAt(h, CabinetUser(p)).value;
    RecordsElsewhere(g, h, m.past, {q}, AccountOf(p), u, p);
  }

  lemma TrustedStays(g: Files, h: Files, c: Cabinet, d: string, now: int, q: CabinetPath)
    requires CabinetTrusted(g, c, d, now) && CabinetFrame(g, h, q) && q != CabinetPath(d, c.id)
    ensures CabinetTrusted(h, c, d, now)
  {
  }

  /** If no live key was on record, none is once every minted cabinet is accounted for. */
  lemma StaysUnrevoked(f: Files, m: Moment, paths: set<CabinetPath>, spec: RotationSpec)
    requires Inv(m) && Minted(f, m.files, m.past, paths) && CurrentUnrevoked(f)
    requires forall p :: p in paths ==> RecordsExactly(f, m.files, p, p.id in spec.cabinets)
    ensures CurrentUnrevoked(m.files)
  {
    hide Inv, Minted, Logged, RecordsOf;
    forall p, k: Key | KeyAt(m.files, CabinetUser(p)) == Good(k) ensures !Logged(m.files.retired, AccountOf(p), k) {
      LoggedIsRecorded(m.files.retired, AccountOf(p), k);
      LoggedIsRecorded(f.retired, AccountOf(p), k);
      if p !in paths {
        UntouchedKey(f, m, paths, p);
        KeyOwned(m, CabinetUser(p));
        MintedGains(f, m, paths);
        RecordsElsewhere(f, m.files, m.past, paths, AccountOf(p), k, p);
      }
    }
  }

  /** The accounts before it leave an account's root, and so its JWT, alone. */
  lemma OwnJwtUntouched(f: Files, g: Files, accounts: seq<Account>, i: nat)
    requires i < |accounts| && DistinctNames(accounts) && g.accountJwt == f.accountJwt
    requires forall s :: KeyAt(g, s) != KeyAt(f, s) ==> AccountSlot(accounts[..i], s)
    ensures var name := accounts[i].name;
            AccountDeclared(g, name) == AccountDeclared(f, name) && (JwtUnreadable(g, name) <==> JwtUnreadable(f, name))
  {
    forall a | a in accounts[..i] ensures a.name != accounts[i].name {
      var k :| 0 <= k < i && accounts[..i][k] == a;
    }
    assert KeyAt(g, AccountRoot(accounts[i].name)) == KeyAt(f, AccountRoot(accounts[i].name));
  }

  lemma MintedGains(f: Files, m: Moment, paths: set<CabinetPath>)
    requires Minted(f, m.files, m.past, paths)
    ensures Gained(f, m.files, m.past, paths)
  {
  }

  ghost predicate AccountSlot(accounts: seq<Account>, s: Slot)
  {
    (s.AccountRoot? || s.AccountSK?) && exists a <- accounts :: a.name == s.account
  }

  ghost predicate AllKeyed(f: Files, accounts: seq<Account>, accts: seq<Acct>)
  {
    |accts| == |accounts| && forall i :: 0 <= i < |accts| ==> accts[i].def == accounts[i] && Keyed(f, accts[i])
  }

  lemma AccountsStep(f: Files, g: Files, h: Files, accounts: seq<Account>, i: nat, accts: seq<Acct>, acct: Acct)
    requires i < |accounts| && DistinctNames(accounts)
    requires forall s :: KeyAt(g, s) != KeyAt(f, s) ==> AccountSlot(accounts[..i], s)
    requires SameKeysBut(g, h, {AccountRoot(accounts[i].name), AccountSK(accounts[i].name)})
    requires AllKeyed(g, accounts[..i], accts) && acct.def == accounts[i] && Keyed(h, acct)
    ensures forall s :: KeyAt(h, s) != KeyAt(f, s) ==> AccountSlot(accounts[..i + 1], s)
    ensures AllKeyed(h, accounts[..i + 1], accts + [acct])
  {
    assert accounts[..i + 1] == accounts[..i] + [accounts[i]];
    forall s | KeyAt(h, s) != KeyAt(f, s) ensures AccountSlot(accounts[..i + 1], s) {
      if KeyAt(g, s) != KeyAt(f, s) {
        var a :| a in accounts[..i] && a.name == s.account;
        assert a in accounts[..i + 1];
      } else {
        assert accounts[i] in accounts[..i + 1];
      }
    }
    forall k | 0 <= k < i ensures Keyed(h, accts[k]) {
      assert accounts[..i][k] == accounts[k];
      assert Keyed(g, accts[k]);
    }
  }

  /** The first i accounts have their keys; nothing else has changed. */
  ghost predicate AccountsSoFar(f: Files, g: Files, accounts: seq<Account>, i: nat, accts: seq<Acct>,
                                spec: RotationSpec, bound: Key)
  {
    && i <= |accounts| && g == f.(keys := g.keys, retiredAccountSK := g.retiredAccountSK)
    && (forall s :: KeyAt(g, s) != KeyAt(f, s) ==> AccountSlot(accounts[..i], s))
    && Kept(f, g, spec)
    && AllKeyed(g, accounts[..i], accts)
    && (forall a :: a in accts && a.def.name in spec.accountSK ==> a.sk >= bound)
    && forall k :: 0 <= k < i && accounts[k].name in spec.accountSK ==> !JwtUnreadable(f, accounts[k].name)
  }

  /** What one account's turn may change. */
  ghost predicate AccountTurn(g: Files, h: Files, a: Account, rotating: bool)
  {
    && h == g.(keys := h.keys, retiredAccountSK := h.retiredAccountSK)
    && SameKeysBut(g, h, {AccountRoot(a.name), AccountSK(a.name)})
    && (KeyAt(g, AccountRoot(a.name)) != Missing ==> KeyAt(h, AccountRoot(a.name)) == KeyAt(g, AccountRoot(a.name)))
    && (KeyAt(g, AccountSK(a.name)) != Missing && !rotating ==>
        KeyAt(h, AccountSK(a.name)) == KeyAt(g, AccountSK(a.name)))
  }

  lemma NoAccountsYet(f: Files, accounts: seq<Account>, spec: RotationSpec, bound: Key)
    ensures AccountsSoFar(f, f, accounts, 0, [], spec, bound)
  {
  }

  lemma NextAccount(f: Files, g: Files, h: Files, accounts: seq<Account>, i: nat, accts: seq<Acct>, acct: Acct,
                    spec: RotationSpec, bound: Key)
    requires AccountsSoFar(f, g, accounts, i, accts, spec, bound) && i < |accounts| && DistinctNames(accounts)
    requires AccountTurn(g, h, accounts[i], accounts[i].name in spec.accountSK)
    requires acct.def == accounts[i] && Keyed(h, acct)
    requires accounts[i].name in spec.accountSK ==> acct.sk >= bound && !JwtUnreadable(g, accounts[i].name)
    ensures AccountsSoFar(f, h, accounts, i + 1, accts + [acct], spec, bound)
  {
    hide JwtUnreadable, Keyed;
    TurnKeeps(f, g, h, accounts, i, accts, spec, bound);
    AccountsStep(f, g, h, accounts, i, accts, acct);
    OwnJwtUntouched(f, g, accounts, i);
  }

  lemma TurnKeeps(f: Files, g: Files, h: Files, accounts: seq<Account>, i: nat, accts: seq<Acct>,
                  spec: RotationSpec, bound: Key)
    requires AccountsSoFar(f, g, accounts, i, accts, spec, bound) && i < |accounts|
    requires AccountTurn(g, h, accounts[i], accounts[i].name in spec.accountSK)
    ensures Kept(f, h, spec) && (forall s :: KeyAt(h, s) != KeyAt(f, s) ==> AccountSlot(accounts, s))
  {
    hide JwtUnreadable, Keyed, AllKeyed;
    assert Kept(g, h, spec);
    KeptTrans(f, g, h, spec);
    forall s | KeyAt(h, s) != KeyAt(f, s) ensures AccountSlot(accounts, s) {
      if KeyAt(g, s) != KeyAt(f, s) {
        var a :| a in accounts[..i] && a.name == s.account;
        assert a in accounts;
      } else {
        assert accounts[i] in accounts;
      }
    }
  }

  /** What stopped an account's turn, told for the whole phase. */
  lemma AccountTurnFails(f: Files, g: Files, h: Files, accounts: seq<Account>, i: nat, accts: seq<Acct>,
                         spec: RotationSpec, bound: Key, writesLeft: nat, e: Failure)
    requires AccountsSoFar(f, g, accounts, i, accts, spec, bound) && i < |accounts| && DistinctNames(accounts)
    requires
      var a := accounts[i];
      var rotating := a.name in spec.accountSK;
      || (e == Stopped && writesLeft == 0)
      || (e == BadSeed && KeyAt(h, AccountRoot(a.name)).Broken())
      || (e == BadSeed && !rotating && KeyAt(h, AccountSK(a.name)).Broken())
      || (e == UnreadableJwt && rotating && JwtUnreadable(g, a.name))
    ensures AccountsCause(f, h, writesLeft, accounts, spec, e)
  {
    hide JwtUnreadable, Keyed, AllKeyed, Kept;
    OwnJwtUntouched(f, g, accounts, i);
    var a := accounts[i];
    assert AccountSlot(accounts, AccountRoot(a.name)) && AccountSlot(accounts, AccountSK(a.name));
    assert KeyAt(h, AccountRoot(a.name)).Broken() ==> BrokenSeed(h, spec, AccountRoot(a.name));
    assert a.name !in spec.accountSK && KeyAt(h, AccountSK(a.name)).Broken() ==> BrokenSeed(h, spec, AccountSK(a.name));
  }

  ghost predicate AccountsCause(f0: Files, f: Files, writesLeft: nat, accounts: seq<Account>,
                                spec: RotationSpec, e: Failure)
  {
    || (e == Stopped && writesLeft == 0)
    || (e == BadSeed && exists s :: AccountSlot(accounts, s) && BrokenSeed(f, spec, s))
    || (e == UnreadableJwt && AccountJwtInTheWay(f0, spec))
  }

  /** The accounts' phase is over. */
  lemma AllAccountsDone(f: Files, g: Files, accounts: seq<Account>, accts: seq<Acct>, spec: RotationSpec, bound: Key)
    requires AccountsSoFar(f, g, accounts, |accounts|, accts, spec, bound)
    ensures AllKeyed(g, accounts, accts) && Kept(f, g, spec)
    ensures forall s :: KeyAt(g, s) != KeyAt(f, s) ==> AccountSlot(accounts, s)
    ensures forall a :: a in accounts && a.name in spec.accountSK ==> !JwtUnreadable(f, a.name)
  {
    hide JwtUnreadable, Keyed;
    assert accounts[..|accounts|] == accounts;
  }

  /** A root minted just now has no JWT yet. */
  lemma NewRootDeclaresNothing(m: Moment, g: Files, account: string, pub: Key, bound: Key)
    requires Inv(m) && g.accountJwt == m.files.accountJwt && KeyAt(g, AccountRoot(account)) == Good(pub)
    requires KeyAt(m.files, AccountRoot(account)) != Good(pub) ==> pub !in m.past.minted
    ensures AccountDeclared(g, account) <= AccountDeclared(m.files, account)
    ensures JwtUnreadable(g, account) ==> JwtUnreadable(m.files, account)
    ensures JwtUnreadable(m.files, account) && KeyAt(m.files, AccountRoot(account)) == Good(pub) ==>
              JwtUnreadable(g, account)
  {
  }

  /** One cabinet's own mint: a key minted now is on no record, a kept key is on record as before. */
  lemma MintExact(m0: Moment, m1: Moment, g: Files, p: CabinetPath, rotating: bool, bound: Key)
    requires Inv(m0) && Inv(m1) && forall k: Key :: k in m1.past.minted ==> k < bound
    requires m1.files == m0.files.(retired := m1.files.retired) && m1.past.minted == m0.past.minted
    requires !rotating ==> m1.files == m0.files
    requires g.retired == m1.files.retired && KeyAt(g, CabinetUser(p)).Good?
    requires if rotating || KeyAt(m1.files, CabinetUser(p)) == Missing then KeyAt(g, CabinetUser(p)).value >= bound
             else KeyAt(g, CabinetUser(p)) == KeyAt(m1.files, CabinetUser(p))
    ensures RecordsExactly(m0.files, g, p, rotating)
    ensures rotating ==> KeyAt(g, CabinetUser(p)) != KeyAt(m0.files, CabinetUser(p))
  {
    var u := KeyAt(g, CabinetUser(p)).value;
    assert KeyAt(m1.files, CabinetUser(p)) == KeyAt(m0.files, CabinetUser(p));
    if u >= bound {
      LoggedIsRecorded(m1.files.retired, AccountOf(p), u);
      if Logged(m1.files.retired, AccountOf(p), u) { LoggedMinted(m1, AccountOf(p), u); }
      if KeyAt(m0.files, CabinetUser(p)).Good? { KeyOwned(m0, CabinetUser(p)); }
    }
  }

  // ---- all cabinets of an inventory ----

  predicate InInventory(inv: Inventory, id: string)
  {
    exists c <- inv.cabinets :: c.id == id
  }

  ghost predicate InventoryPath(inv: Inventory, t: Topology, p: CabinetPath)
  {
    exists c <- inv.cabinets :: c.id == p.id && Owns(t, p.district, c.partition)
  }

  ghost predicate InventoryPaths(inv: Inventory, t: Topology, paths: set<CabinetPath>)
  {
    forall p :: p in paths ==> InventoryPath(inv, t, p)
  }

  /** From f to g nothing changed but the CA and cabinets of the inventory. */
  ghost predicate InventoryMinted(f: Files, g: Files, past: Past, inv: Inventory, t: Topology)
  {
    exists paths: set<CabinetPath> ::
      && InventoryPaths(inv, t, paths)
      && Minted(f.(caCert := g.caCert, caKey := g.caKey), g, past, paths)
  }

  /** One cabinet's credentials are complete, and its revocation and rotation came out as asked. */
  ghost predicate CabinetDone(f: Files, g: Files, t: Topology, c: Cabinet, d: string, spec: RotationSpec, now: int)
  {
    var p, rotating := CabinetPath(d, c.id), c.id in spec.cabinets;
    && Owns(t, d, c.partition)
    && CabinetTrusted(g, c, d, now)
    && RecordsExactly(f, g, p, rotating)
    && (rotating ==> Replaced(f, g, p, now))
  }

  /** A rotated cabinet has a new user key, leaf key and serial; its old artifacts were read and are on record. */
  ghost predicate Replaced(f: Files, g: Files, p: CabinetPath, now: int)
  {
    && (Retirable(f, p) ==> OnRecord(f, g, p, now))
    && KeyAt(g, CabinetUser(p)) != KeyAt(f, CabinetUser(p)) && At(g.leaf, p) != At(f.leaf, p)
    && !At(f.creds, p).Broken() && !At(f.cert, p).Broken()
    && At(g.cert, p).Good? && (At(f.cert, p).Good? ==> g.cert[p].value.serial != f.cert[p].value.serial)
  }

  ghost predicate InventoryDone(f: Files, g: Files, inv: Inventory, t: Topology, spec: RotationSpec, now: int)
  {
    forall c :: c in inv.cabinets ==> exists d :: CabinetDone(f, g, t, c, d, spec, now)
  }

  ghost predicate PrefixDone(f: Files, g: Files, t: Topology, cs: seq<Cabinet>, ds: seq<string>,
                             spec: RotationSpec, now: int)
  {
    |ds| <= |cs| && forall j :: 0 <= j < |ds| ==> CabinetDone(f, g, t, cs[j], ds[j], spec, now)
  }

  ghost function PathsOf(cs: seq<Cabinet>, ds: seq<string>): set<CabinetPath>
    requires |ds| <= |cs|
  {
    set j | 0 <= j < |ds| :: CabinetPath(ds[j], cs[j].id)
  }

  lemma DoneStays(f: Files, g: Files, m: Moment, t: Topology, c: Cabinet, d: string, q: CabinetPath,
                  spec: RotationSpec, now: int)
    requires CabinetDone(f, g, t, c, d, spec, now) && c.id != q.id
    requires Inv(m) && CabinetFrame(g, m.files, q) && Gained(g, m.files, m.past, {q})
    ensures CabinetDone(f, m.files, t, c, d, spec, now)
  {
    hide Inv, CabinetTrusted, RecordsExactly;
    TrustedStays(g, m.files, c, d, now, q);
    ExactStays(f, g, m.files, m, CabinetPath(d, c.id), q, c.id in spec.cabinets);
  }

  lemma PrefixStep(f: Files, before: Moment, after: Moment, t: Topology, inv: Inventory, ds: seq<string>,
                   d: string, spec: RotationSpec, now: int)
    requires Loaded(inv) && |ds| < |inv.cabinets| && Inv(before) && Inv(after)
    requires Minted(f, before.files, before.past, PathsOf(inv.cabinets, ds))
    requires PrefixDone(f, before.files, t, inv.cabinets, ds, spec, now)
    requires Grown(before.past, after.past)
    requires var c := inv.cabinets[|ds|];
             var p := CabinetPath(d, c.id);
             && CabinetFrame(before.files, after.files, p) && Gained(before.files, after.files, after.past, {p})
             && CabinetDone(before.files, after.files, t, c, d, spec, now)
    ensures Minted(f, after.files, after.past, PathsOf(inv.cabinets, ds + [d]))
    ensures PrefixDone(f, after.files, t, inv.cabinets, ds + [d], spec, now)
  {
    hide Inv, CabinetTrusted, RecordsExactly, CabinetFrame, Minted, Gained;
    var cs, n := inv.cabinets, |ds|;
    var c := cs[n];
    var p := CabinetPath(d, c.id);
    var paths := PathsOf(cs, ds);
    NotYet(inv, ds, d);
    MintedStep(f, before.files, after.files, before.past, after.past, paths, p);
    forall j | 0 <= j < n ensures CabinetDone(f, after.files, t, cs[j], ds[j], spec, now) {
      DoneStays(f, before.files, after, t, cs[j], ds[j], p, spec, now);
    }
    ExactFromStart(f, before.files, after.files, before, paths, p, c.id in spec.cabinets);
    UntouchedKey(f, before, paths, p);
    assert CabinetDone(f, after.files, t, c, d, spec, now);
  }

  lemma UntouchedKey(f: Files, m: Moment, paths: set<CabinetPath>, p: CabinetPath)
    requires Minted(f, m.files, m.past, paths) && p !in paths
    ensures KeyAt(m.files, CabinetUser(p)) == KeyAt(f, CabinetUser(p))
    ensures At(m.files.leaf, p) == At(f.leaf, p) && At(m.files.creds, p) == At(f.creds, p)
    ensures At(m.files.cert, p) == At(f.cert, p)
  {
  }

  lemma NotYet(inv: Inventory, ds: seq<string>, d: string)
    requires Loaded(inv) && |ds| < |inv.cabinets|
    ensures var p := CabinetPath(d, inv.cabinets[|ds|].id);
            p !in PathsOf(inv.cabinets, ds) && PathsOf(inv.cabinets, ds + [d]) == PathsOf(inv.cabinets, ds) + {p}
  {
    var cs, n := inv.cabinets, |ds|;
    var p := CabinetPath(d, cs[n].id);
    forall q ensures q in PathsOf(cs, ds + [d]) <==> q in PathsOf(cs, ds) || q == p {
      if q in PathsOf(cs, ds) {
        var j :| 0 <= j < n && q == CabinetPath(ds[j], cs[j].id);
        assert (ds + [d])[j] == ds[j];
      }
      if q == p { assert (ds + [d])[n] == d; }
    }
  }

  lemma AllDone(f: Files, m: Moment, inv: Inventory, t: Topology, ds: seq<string>, spec: RotationSpec, now: int)
    requires |ds| == |inv.cabinets| && Inv(m)
    requires Minted(f, m.files, m.past, PathsOf(inv.cabinets, ds))
    requires PrefixDone(f, m.files, t, inv.cabinets, ds, spec, now)
    ensures InventoryDone(f, m.files, inv, t, spec, now)
    ensures CurrentUnrevoked(f) ==> CurrentUnrevoked(m.files)
  {
    hide Inv, CabinetTrusted, Minted, CurrentUnrevoked, RecordsExactly;
    forall c | c in inv.cabinets ensures exists d :: CabinetDone(f, m.files, t, c, d, spec, now) {
      var j :| 0 <= j < |inv.cabinets| && inv.cabinets[j] == c;
      assert CabinetDone(f, m.files, t, c, ds[j], spec, now);
    }
    if CurrentUnrevoked(f) {
      var paths := PathsOf(inv.cabinets, ds);
      forall p | p in paths ensures RecordsExactly(f, m.files, p, p.id in spec.cabinets) {
        var j :| 0 <= j < |ds| && p == CabinetPath(ds[j], inv.cabinets[j].id);
        assert CabinetDone(f, m.files, t, inv.cabinets[j], ds[j], spec, now);
      }
      StaysUnrevoked(f, m, paths, spec);
    }
  }

  lemma PathsInInventory(g: Files, f: Files, inv: Inventory, t: Topology, ds: seq<string>, spec: RotationSpec, now: int)
    requires |ds| <= |inv.cabinets| && PrefixDone(f, g, t, inv.cabinets, ds, spec, now)
    ensures forall p :: p in PathsOf(inv.cabinets, ds) ==> InventoryPath(inv, t, p)
  {
    forall p | p in PathsOf(inv.cabinets, ds) ensures InventoryPath(inv, t, p) {
      var j :| 0 <= j < |ds| && p == CabinetPath(ds[j], inv.cabinets[j].id);
      assert CabinetDone(f, g, t, inv.cabinets[j], ds[j], spec, now);
      assert inv.cabinets[j] in inv.cabinets;
    }
  }

  lemma NoneMinted(f: Files, past: Past, model: Model, inv: Inventory, t: Topology, spec: RotationSpec, now: int)
    ensures PathsOf(inv.cabinets, []) == {} && Minted(f, f, past, {})
    ensures PrefixDone(f, f, t, inv.cabinets, [], spec, now)
    ensures Kept(f, f, spec) && FirstOk(model, inv, t, 0)
  {
  }

  lemma SomeMinted(f: Files, m: Moment, inv: Inventory, t: Topology, ds: seq<string>, spec: RotationSpec, now: int)
    requires |ds| <= |inv.cabinets|
    requires Minted(f, m.files, m.past, PathsOf(inv.cabinets, ds))
    requires PrefixDone(f, m.files, t, inv.cabinets, ds, spec, now)
    ensures InventoryMinted(f, m.files, m.past, inv, t)
  {
    PathsInInventory(m.files, f, inv, t, ds, spec, now);
    assert f.(caCert := m.files.caCert, caKey := m.files.caKey) == f;
  }

  lemma OneMoreMinted(f: Files, before: Moment, after: Moment, inv: Inventory, t: Topology, ds: seq<string>,
                      c: Cabinet, d: string, spec: RotationSpec, now: int)
    requires |ds| < |inv.cabinets| && c in inv.cabinets && Owns(t, d, c.partition)
    requires Minted(f, before.files, before.past, PathsOf(inv.cabinets, ds))
    requires PrefixDone(f, before.files, t, inv.cabinets, ds, spec, now)
    requires Grown(before.past, after.past)
    requires CabinetFrame(before.files, after.files, CabinetPath(d, c.id))
    requires Gained(before.files, after.files, after.past, {CabinetPath(d, c.id)})
    ensures InventoryMinted(f, after.files, after.past, inv, t)
  {
    hide CabinetTrusted, RecordsExactly;
    var paths, p := PathsOf(inv.cabinets, ds), CabinetPath(d, c.id);
    PathsInInventory(before.files, f, inv, t, ds, spec, now);
    MintedStep(f, before.files, after.files, before.past, after.past, paths, p);
    assert InventoryPath(inv, t, p);
    assert f.(caCert := after.files.caCert, caKey := after.files.caKey) == f;
    assert forall q :: q in paths + {p} ==> InventoryPath(inv, t, q);
  }

  lemma KeptStep(f: Files, g: Files, h: Files, spec: RotationSpec, p: CabinetPath)
    requires Kept(f, g, spec) && CabinetFrame(g, h, p)
    requires KeyAt(g, CabinetUser(p)) != Missing && p.id !in spec.cabinets ==>
        KeyAt(h, CabinetUser(p)) == KeyAt(g, CabinetUser(p))
    requires At(g.leaf, p) != Missing && p.id !in spec.cabinets ==> At(h.leaf, p) == At(g.leaf, p)
    ensures Kept(f, h, spec)
  {
  }

  /** The CA is no seed file and no log. */
  lemma CAChangesNoKey(f: Files, g: Files, m: Moment, inv: Inventory, t: Topology, spec: RotationSpec, now: int)
    requires g == f.(caCert := g.caCert, caKey := g.caKey) && CAKept(f, g)
    requires InventoryMinted(g, m.files, m.past, inv, t) && Kept(g, m.files, spec)
    ensures InventoryMinted(f, m.files, m.past, inv, t) && Kept(f, m.files, spec)
    ensures InventoryDone(g, m.files, inv, t, spec, now) ==> InventoryDone(f, m.files, inv, t, spec, now)
    ensures CurrentUnrevoked(g) == CurrentUnrevoked(f)
  {
    assert forall s :: KeyAt(g, s) == KeyAt(f, s);
    hide CabinetDone;
    if InventoryDone(g, m.files, inv, t, spec, now) {
      InventoryDoneMoves(g, f, m.files, m.files, inv, t, spec, now);
    }
  }

  // ---- consumers ----

  ghost predicate ConsumersTrusted(f: Files, model: Model, now: int)
  {
    exists out: seq<Consumer> :: AggregateOf(DmzUsers(model), out) && forall c :: c in out ==>
        ConsumerTrusted(f, c, now)
  }

  ghost predicate ConsumerSlot(model: Model, s: Slot)
  {
    s.ConsumerUser? && HasUser(DmzUsers(model), s.consumer)
  }

  /** From f to g only consumers of the DMZ account were minted. */
  ghost predicate ConsumersMinted(f: Files, g: Files, model: Model)
  {
    && g == f.(keys := g.keys, consumerCreds := g.consumerCreds)
    && (forall s :: KeyAt(g, s) != KeyAt(f, s) ==> ConsumerSlot(model, s) && KeyAt(f, s) == Missing)
  }

  lemma ConsumerStep(f: Files, g: Files, h: Files, model: Model, out: seq<Consumer>, i: nat, now: int)
    requires AggregateOf(DmzUsers(model), out) && i < |out|
    requires ConsumersMinted(f, g, model) && forall k :: 0 <= k < i ==> ConsumerTrusted(g, out[k], now)
    requires h == g.(keys := h.keys, consumerCreds := h.consumerCreds)
    requires SameKeysBut(g, h, {ConsumerUser(out[i].name)})
    requires KeyAt(g, ConsumerUser(out[i].name)) != Missing ==> h.keys == g.keys
    requires forall n :: n != out[i].name ==> At(h.consumerCreds, n) == At(g.consumerCreds, n)
    ensures ConsumersMinted(f, h, model) && forall k :: 0 <= k < i ==> ConsumerTrusted(h, out[k], now)
  {
    assert out[i] in out;
    assert HasUser(DmzUsers(model), out[i].name);
    forall k | 0 <= k < i ensures ConsumerTrusted(h, out[k], now) {
      Text.LessIrreflexive(out[k].name, out[i].name);
    }
  }

  // ---- the resolver ----

  lemma AccountStays(f: Files, g: Files, def: Account, now: int, j: AccountJwt)
    requires AccountTrusted(f, def, now)
    requires g == f.(accountJwt := f.accountJwt[j.subject := Good(j)])
    requires KeyAt(f, AccountRoot(def.name)) != Good(j.subject)
    ensures AccountTrusted(g, def, now)
  {
    var earlier: AccountJwt :| JwtOf(f, def, now, earlier) && At(f.accountJwt, earlier.subject) == Good(earlier);
    JwtMoves(f, g, def, now, earlier);
  }

  /** A JWT is judged by the seed files and the log. */
  lemma JwtMoves(f: Files, g: Files, def: Account, now: int, j: AccountJwt)
    requires JwtOf(f, def, now, j) && g.keys == f.keys && g.retired == f.retired
    ensures JwtOf(g, def, now, j)
  {
    assert forall s :: KeyAt(g, s) == KeyAt(f, s);
  }

  lemma WrittenAccount(f: Files, acct: Acct, now: int, j: AccountJwt)
    requires Keyed(f, acct) && ImportsResolved(f, acct.def.imports, j.imports) && KeyAt(f, OperatorSK) == Good(j.issuer)
    requires j.subject == acct.pub && j.name == acct.def.name && j.signingKeys == {acct.sk}
    requires j.exports == acct.def.exports
    requires j.jetStream == acct.def.jetStream && RevocationsOf(f.retired, acct.def.name, now, j.revocations)
    requires At(f.accountJwt, j.subject) == Good(j)
    ensures AccountTrusted(f, acct.def, now)
  {
    assert KeyAt(f, AccountSK(acct.def.name)) == Good(acct.sk) && j.signingKeys == {acct.sk};
    assert JwtOf(f, acct.def, now, j);
  }

  lemma AccountTrustedMoves(f: Files, g: Files, def: Account, now: int)
    requires AccountTrusted(f, def, now) && g.keys == f.keys && g.retired == f.retired && g.accountJwt == f.accountJwt
    ensures AccountTrusted(g, def, now)
  {
    var j: AccountJwt :| JwtOf(f, def, now, j) && At(f.accountJwt, j.subject) == Good(j);
    JwtMoves(f, g, def, now, j);
  }

  /** Two accounts have two roots. */
  lemma OtherRoot(m: Moment, accounts: seq<Account>, accts: seq<Acct>, k: nat, i: nat)
    requires Inv(m) && DistinctNames(accounts) && AllKeyed(m.files, accounts, accts) && k < i < |accts|
    ensures KeyAt(m.files, AccountRoot(accts[k].def.name)) != Good(accts[i].pub)
  {
    KeyOwned(m, AccountRoot(accts[k].def.name));
    KeyOwned(m, AccountRoot(accts[i].def.name));
    assert Keyed(m.files, accts[i]) && Keyed(m.files, accts[k]);
  }

  ghost predicate WroteJwtOf(f: Files, g: Files, pub: Key)
  {
    exists j: AccountJwt :: j.subject == pub && g == f.(accountJwt := f.accountJwt[pub := Good(j)])
  }

  ghost predicate PrefixTrusted(f: Files, accts: seq<Acct>, n: nat, now: int)
  {
    n <= |accts| && forall k :: 0 <= k < n ==> AccountTrusted(f, accts[k].def, now)
  }

  lemma NoneTrusted(f: Files, accts: seq<Acct>, now: int)
    ensures PrefixTrusted(f, accts, 0, now)
  {
  }

  lemma TrustedStep(m: Moment, g: Files, accounts: seq<Account>, accts: seq<Acct>, i: nat, now: int)
    requires Inv(m) && DistinctNames(accounts) && AllKeyed(m.files, accounts, accts) && i < |accts|
    requires PrefixTrusted(m.files, accts, i, now) && (g == m.files || WroteJwtOf(m.files, g, accts[i].pub))
    requires AccountTrusted(g, accts[i].def, now)
    ensures PrefixTrusted(g, accts, i + 1, now)
  {
    hide AccountTrusted, Inv, AllKeyed;
    if g != m.files {
      var j: AccountJwt :|
          j.subject == accts[i].pub && g == m.files.(accountJwt := m.files.accountJwt[accts[i].pub := Good(j)]);
      forall k | 0 <= k < i ensures AccountTrusted(g, accts[k].def, now) {
        OtherRoot(m, accounts, accts, k, i);
        AccountStays(m.files, g, accts[k].def, now, j);
      }
    }
  }

  lemma AllAccountsTrusted(f: Files, g: Files, accounts: seq<Account>, accts: seq<Acct>, now: int)
    requires AllKeyed(f, accounts, accts) && PrefixTrusted(f, accts, |accts|, now)
    requires g.keys == f.keys && g.retired == f.retired && g.accountJwt == f.accountJwt
    ensures forall a :: a in accounts ==> AccountTrusted(g, a, now)
  {
    hide AccountTrusted;
    forall a | a in accounts ensures AccountTrusted(g, a, now) {
      var k :| 0 <= k < |accounts| && accounts[k] == a;
      AccountTrustedMoves(f, g, a, now);
    }
  }

  lemma NoDmzNoConsumers(f: Files, model: Model, now: int)
    requires FindAccount(model.accounts, DMZ_ACCOUNT).None?
    ensures ConsumersTrusted(f, model, now)
  {
    var out: seq<Consumer> := [];
    assert AggregateOf(DmzUsers(model), out);
  }

  // ---- a whole run ----

  /** Everything a completed run promises about the bundle. */
  ghost predicate TrustChain(f: Files, model: Model, inv: Option<Inventory>, t: Topology, now: int)
  {
    && OperatorTrusted(f, model.dot)
    && (forall a :: a in model.accounts ==> AccountTrusted(f, a, now))
    && (inv.Some? ==> WholeCA(f))
    && (inv.Some? ==> forall c :: c in inv.value.cabinets ==>
        exists d :: Owns(t, d, c.partition) && CabinetTrusted(f, c, d, now))
    && ConsumersTrusted(f, model, now)
  }

  /** The seed files a run of this model and inventory has to do with. */
  ghost predicate InScope(model: Model, inv: Option<Inventory>, t: Topology, s: Slot)
  {
    match s
    case OperatorRoot => true
    case OperatorSK => true
    case CabinetUser(p) => inv.Some? && InventoryPath(inv.value, t, p)
    case ConsumerUser(_) => ConsumerSlot(model, s)
    case _ => AccountSlot(model.accounts, s)
  }

  ghost predicate InScopeOnly(f: Files, g: Files, model: Model, inv: Option<Inventory>, t: Topology)
  {
    && (forall s :: KeyAt(g, s) != KeyAt(f, s) ==> InScope(model, inv, t, s))
    && (forall p :: At(g.leaf, p) != At(f.leaf, p) ==> inv.Some? && InventoryPath(inv.value, t, p))
    && (g.caCert != f.caCert || g.caKey != f.caKey ==> inv.Some?)
  }

  /** A rotation named on the command line has replaced the key. */
  ghost predicate Rotated(f: Files, g: Files, spec: RotationSpec)
  {
    && (spec.operatorSK ==> KeyAt(g, OperatorSK) != KeyAt(f, OperatorSK))
    && forall a :: a in spec.accountSK ==> KeyAt(g, AccountSK(a)) != KeyAt(f, AccountSK(a))
  }

  lemma OperatorStays(f: Files, g: Files, dot: string)
    requires OperatorTrusted(f, dot) && g.operatorJwt == f.operatorJwt
    requires KeyAt(g, OperatorRoot) == KeyAt(f, OperatorRoot) && KeyAt(g, OperatorSK) == KeyAt(f, OperatorSK)
    ensures OperatorTrusted(g, dot)
  {
  }

  lemma KeyedStays(f: Files, g: Files, accounts: seq<Account>, accts: seq<Acct>)
    requires AllKeyed(f, accounts, accts)
    requires forall s :: KeyAt(g, s) != KeyAt(f, s) ==> !s.AccountRoot? && !s.AccountSK?
    ensures AllKeyed(g, accounts, accts)
  {
    forall i | 0 <= i < |accts| ensures Keyed(g, accts[i]) { assert Keyed(f, accts[i]); }
  }

  lemma SameKeys(f: Files, g: Files, accounts: seq<Account>, accts: seq<Acct>)
    requires g.keys == f.keys && AllKeyed(f, accounts, accts)
    ensures AllKeyed(g, accounts, accts) && KeyAt(g, OperatorSK) == KeyAt(f, OperatorSK)
  {
    assert forall s :: KeyAt(g, s) == KeyAt(f, s);
    KeyedStays(f, g, accounts, accts);
  }

  /** What is said of the cabinets from f to g holds from any earlier to any later point that left them alone. */
  /** What a cabinet's turn is judged by is the same at the start and at the end. */
  ghost predicate SameBounds(f: Files, f': Files, g: Files, g': Files)
  {
    && f'.retired == f.retired && f'.leaf == f.leaf && f'.creds == f.creds && f'.cert == f.cert
    && (forall p :: KeyAt(f', CabinetUser(p)) == KeyAt(f, CabinetUser(p)))
    && g'.retired == g.retired && g'.creds == g.creds && g'.leaf == g.leaf && g'.cert == g.cert
    && g'.caKey == g.caKey && forall s :: KeyAt(g', s) != KeyAt(g, s) ==> s.ConsumerUser?
  }

  lemma InventoryDoneMoves(f: Files, f': Files, g: Files, g': Files, inv: Inventory, t: Topology,
                           spec: RotationSpec, now: int)
    requires InventoryDone(f, g, inv, t, spec, now) && SameBounds(f, f', g, g')
    ensures InventoryDone(f', g', inv, t, spec, now)
  {
    hide SameBounds, CabinetTrusted, RecordsExactly, Replaced, Owns;
    forall c | c in inv.cabinets ensures exists d :: CabinetDone(f', g', t, c, d, spec, now) {
      var d :| CabinetDone(f, g, t, c, d, spec, now);
      var p, rotating := CabinetPath(d, c.id), c.id in spec.cabinets;
      TrustedMoves(f, f', g, g', c, d, now);
      RecordsMove(f, f', g, g', p, rotating);
      if rotating { ReplacedMoves(f, f', g, g', p, now); }
      assert CabinetDone(f', g', t, c, d, spec, now);
    }
  }

  lemma TrustedMoves(f: Files, f': Files, g: Files, g': Files, c: Cabinet, d: string, now: int)
    requires SameBounds(f, f', g, g') && CabinetTrusted(g, c, d, now)
    ensures CabinetTrusted(g', c, d, now)
  {
  }

  lemma RecordsMove(f: Files, f': Files, g: Files, g': Files, p: CabinetPath, rotating: bool)
    requires SameBounds(f, f', g, g') && RecordsExactly(f, g, p, rotating)
    ensures RecordsExactly(f', g', p, rotating)
  {
    hide RecordsOf;
    assert KeyAt(g', CabinetUser(p)) == KeyAt(g, CabinetUser(p));
  }

  lemma ReplacedMoves(f: Files, f': Files, g: Files, g': Files, p: CabinetPath, now: int)
    requires SameBounds(f, f', g, g') && Replaced(f, g, p, now)
    ensures Replaced(f', g', p, now)
  {
    assert KeyAt(g', CabinetUser(p)) == KeyAt(g, CabinetUser(p));
  }

  lemma ConsumersStay(f: Files, g: Files, model: Model, now: int)
    requires ConsumersTrusted(f, model, now) && g.keys == f.keys && g.consumerCreds == f.consumerCreds
    ensures ConsumersTrusted(g, model, now)
  {
    hide AggregateOf;
    var out: seq<Consumer> :| AggregateOf(DmzUsers(model), out) && forall c :: c in out ==> ConsumerTrusted(f, c, now);
    forall c | c in out ensures ConsumerTrusted(g, c, now) { assert ConsumerTrusted(f, c, now); }
  }

  lemma DoneIsTrusted(f: Files, g: Files, inv: Inventory, t: Topology, spec: RotationSpec, now: int)
    requires InventoryDone(f, g, inv, t, spec, now)
    ensures forall c :: c in inv.cabinets ==> exists d :: Owns(t, d, c.partition) && CabinetTrusted(g, c, d, now)
  {
    forall c | c in inv.cabinets ensures exists d :: Owns(t, d, c.partition) && CabinetTrusted(g, c, d, now) {
      var d :| CabinetDone(f, g, t, c, d, spec, now);
    }
  }

  /** After the signers: only user seed files change, and operator.jwt stays. */
  ghost predicate Later(f: Files, g: Files)
  {
    && g.operatorJwt == f.operatorJwt
    && forall s :: KeyAt(g, s) != KeyAt(f, s) ==> s.CabinetUser? || s.ConsumerUser?
  }

  lemma LaterRefl(f: Files)
    ensures Later(f, f)
  {
  }

  lemma LaterKeepsSigner(f: Files, g: Files, h: Files)
    requires Later(f, g) && Later(g, h)
    ensures KeyAt(h, OperatorSK) == KeyAt(f, OperatorSK)
  {
  }

  ghost predicate SignersEnsured(f: Files, g: Files, model: Model)
  {
    && g == f.(keys := g.keys, operatorJwt := g.operatorJwt,
               retiredOperatorSK := g.retiredOperatorSK, retiredAccountSK := g.retiredAccountSK)
    && forall s :: KeyAt(g, s) != KeyAt(f, s) ==> s.OperatorRoot? || s.OperatorSK? || AccountSlot(model.accounts, s)
  }

  lemma SignersRotated(m: Moment, bound: Key, g: Files, accounts: seq<Account>, accts: seq<Acct>, sk: Key,
                       spec: RotationSpec)
    requires Inv(m) && forall k: Key :: k in m.past.minted ==> k < bound
    requires KeyAt(g, OperatorSK) == Good(sk) && AllKeyed(g, accounts, accts)
    requires spec.operatorSK ==> sk >= bound
    requires forall a :: a in accts && a.def.name in spec.accountSK ==> a.sk >= bound
    requires forall a :: a in spec.accountSK ==> FindAccount(accounts, a).Some?
    ensures Rotated(m.files, g, spec)
  {
    if KeyAt(m.files, OperatorSK).Good? { KeyOwned(m, OperatorSK); }
    forall a | a in spec.accountSK ensures KeyAt(g, AccountSK(a)) != KeyAt(m.files, AccountSK(a)) {
      FindAcctAgrees(accounts, accts, a);
      var acct := FindAcct(accts, a).value;
      assert Keyed(g, acct);
      if KeyAt(m.files, AccountSK(a)).Good? { KeyOwned(m, AccountSK(a)); }
    }
  }

  lemma OperatorKeeps(f: Files, g: Files, spec: RotationSpec)
    requires g == f.(keys := g.keys, operatorJwt := g.operatorJwt, retiredOperatorSK := g.retiredOperatorSK)
    requires SameKeysBut(f, g, {OperatorRoot, OperatorSK})
    requires KeyAt(f, OperatorRoot) != Missing ==> KeyAt(g, OperatorRoot) == KeyAt(f, OperatorRoot)
    requires KeyAt(f, OperatorSK) != Missing && !spec.operatorSK ==> KeyAt(g, OperatorSK) == KeyAt(f, OperatorSK)
    ensures Kept(f, g, spec)
  {
  }

  lemma NoAccountWrites(f: Files)
    ensures AccountWrites(f, []) == 0
  {
  }

  lemma {:induction false} FewerWrites(f: Files, accounts: seq<Account>, k: nat)
    requires k <= |accounts|
    ensures AccountWrites(f, accounts[..k]) <= AccountWrites(f, accounts)
  {
    if k < |accounts| {
      var front := accounts[..|accounts| - 1];
      FewerWrites(f, front, k);
      assert front[..k] == accounts[..k];
    } else {
      assert accounts[..k] == accounts;
    }
  }

  lemma MoreWrites(f: Files, accounts: seq<Account>, i: nat)
    requires i < |accounts|
    ensures AccountWrites(f, accounts[..i + 1]) ==
              AccountWrites(f, accounts[..i]) + 2 + AccountDeclared(f, accounts[i].name)
  {
    assert accounts[..i + 1][..i] == accounts[..i];
  }

  /** The operator's phase leaves what the accounts' phase will look at. */
  lemma OperatorLeavesAccounts(f: Files, g: Files, accounts: seq<Account>, spec: RotationSpec)
    requires g.accountJwt == f.accountJwt && forall s: Slot :: s.AccountRoot? ==> KeyAt(g, s) == KeyAt(f, s)
    ensures AccountWrites(g, accounts) == AccountWrites(f, accounts)
    ensures forall a :: JwtUnreadable(g, a) <==> JwtUnreadable(f, a)
  {
    forall a ensures AccountDeclared(g, a) == AccountDeclared(f, a) && (JwtUnreadable(g, a) <==> JwtUnreadable(f, a)) {
      assert KeyAt(g, AccountRoot(a)) == KeyAt(f, AccountRoot(a));
    }
    SameWrites(f, g, accounts);
  }

  lemma {:induction false} SameWrites(f: Files, g: Files, accounts: seq<Account>)
    requires forall a :: AccountDeclared(g, a) == AccountDeclared(f, a)
    ensures AccountWrites(g, accounts) == AccountWrites(f, accounts)
  {
    hide AccountDeclared;
    if accounts != [] { SameWrites(f, g, accounts[..|accounts| - 1]); }
  }

  lemma SignersOnly(f: Files, g: Files, model: Model, inv: Option<Inventory>, t: Topology, now: int)
    requires SignersEnsured(f, g, model)
    ensures InScopeOnly(f, g, model, inv, t) && (HalfCA(g) <==> HalfCA(f))
    ensures forall rotated: set<string> :: Stamped(f, g, rotated, now)
    ensures CurrentUnrevoked(f) ==> CurrentUnrevoked(g)
  {
    assert forall p :: KeyAt(g, CabinetUser(p)) == KeyAt(f, CabinetUser(p));
  }

  lemma CabinetsOnly(f: Files, g: Files, m: Moment, model: Model, inv: Inventory, t: Topology, spec: RotationSpec,
                     accts: seq<Acct>, now: int)
    requires InScopeOnly(f, g, model, Some(inv), t) && Kept(f, g, spec) && Stamped(f, g, spec.cabinets, now)
    requires InventoryMinted(g, m.files, m.past, inv, t) && Kept(g, m.files, spec)
    requires Stamped(g, m.files, spec.cabinets, now)
    ensures InScopeOnly(f, m.files, model, Some(inv), t) && Kept(f, m.files, spec)
    ensures Stamped(f, m.files, spec.cabinets, now)
    ensures Later(g, m.files)
    ensures AllKeyed(g, model.accounts, accts) ==> AllKeyed(m.files, model.accounts, accts)
  {
    KeptTrans(f, g, m.files, spec);
    StampedTrans(f, g, m.files, spec.cabinets, now);
    var paths: set<CabinetPath> :|
      && InventoryPaths(inv, t, paths)
      && Minted(g.(caCert := m.files.caCert, caKey := m.files.caKey), m.files, m.past, paths);
    forall s | KeyAt(m.files, s) != KeyAt(g, s) ensures s.CabinetUser? && InventoryPath(inv, t, s.path) {
    }
    if AllKeyed(g, model.accounts, accts) { KeyedStays(g, m.files, model.accounts, accts); }
  }

  lemma ConsumersOnly(f: Files, g: Files, h: Files, model: Model, inv: Option<Inventory>, t: Topology,
                      spec: RotationSpec, accts: seq<Acct>, now: int)
    requires InScopeOnly(f, g, model, inv, t) && Kept(f, g, spec) && Stamped(f, g, spec.cabinets, now)
    requires ConsumersMinted(g, h, model)
    ensures InScopeOnly(f, h, model, inv, t) && Kept(f, h, spec) && Stamped(f, h, spec.cabinets, now)
    ensures Later(g, h)
    ensures AllKeyed(g, model.accounts, accts) ==> AllKeyed(h, model.accounts, accts)
  {
    if AllKeyed(g, model.accounts, accts) { KeyedStays(g, h, model.accounts, accts); }
  }

  lemma ResolverOnly(f: Files, g: Files, h: Files, model: Model, inv: Option<Inventory>, t: Topology,
                     spec: RotationSpec, now: int)
    requires InScopeOnly(f, g, model, inv, t) && Kept(f, g, spec) && Stamped(f, g, spec.cabinets, now)
    requires h == g.(accountJwt := h.accountJwt, index := h.index, resolverConf := h.resolverConf)
    ensures InScopeOnly(f, h, model, inv, t) && Kept(f, h, spec) && Stamped(f, h, spec.cabinets, now)
    ensures Later(g, h)
  {
    assert forall s :: KeyAt(h, s) == KeyAt(g, s);
  }

  lemma UnrevokedMoves(f: Files, g: Files)
    requires g.retired == f.retired && forall s :: KeyAt(g, s) != KeyAt(f, s) ==> s.ConsumerUser?
    ensures CurrentUnrevoked(f) ==> CurrentUnrevoked(g)
  {
  }

  /** After a completed run every seed file in scope is there. */
  lemma ScopeIsMinted(f: Files, model: Model, inv: Option<Inventory>, t: Topology, now: int, s: Slot)
    requires TrustChain(f, model, inv, t, now) && (inv.Some? ==> FlatPartitions(t)) && InScope(model, inv, t, s)
    ensures KeyAt(f, s).Good?
  {
    match s {
      case OperatorRoot =>
      case OperatorSK =>
      case CabinetUser(p) =>
        var c :| c in inv.value.cabinets && c.id == p.id && Owns(t, p.district, c.partition);
        var d :| Owns(t, d, c.partition) && CabinetTrusted(f, c, d, now);
        assert CabinetPath(d, c.id) == p;
      case ConsumerUser(name) =>
        var out: seq<Consumer> :| AggregateOf(DmzUsers(model), out) && forall c :: c in out ==>
            ConsumerTrusted(f, c, now);
        var c :| c in out && c.name == name;
        assert ConsumerTrusted(f, c, now);
      case _ =>
        var a :| a in model.accounts && a.name == s.account;
        assert AccountTrusted(f, a, now);
    }
  }

  /** And every leaf key file. */
  lemma ScopeHasLeaves(f: Files, model: Model, inv: Inventory, t: Topology, now: int, p: CabinetPath)
    requires TrustChain(f, model, Some(inv), t, now) && FlatPartitions(t) && InventoryPath(inv, t, p)
    ensures At(f.leaf, p).Good?
  {
    var c :| c in inv.cabinets && c.id == p.id && Owns(t, p.district, c.partition);
    var d :| Owns(t, d, c.partition) && CabinetTrusted(f, c, d, now);
    assert CabinetPath(d, c.id) == p;
  }

  // ---- why a run stops short ----

  ghost predicate IndexOf(t: Topology, idx: map<string, string>)
  {
    forall p, d :: p in idx && idx[p] == d <==> Owns(t, d, p)
  }

  /** The boundary checks on one cabinet: its filter lies in the space of a district that has an account. */
  ghost predicate CabinetOk(dot: string, t: Topology, accounts: seq<Account>, c: Cabinet)
  {
    && c.filter != ""
    && exists d :: Owns(t, d, c.partition)
         && FilterUnderDistrict(dot, d, t.district[d].subjectPrefix, c.filter)
         && FindAccount(accounts, DistrictAccountName(d)).Some?
  }

  ghost predicate FirstOk(model: Model, inv: Inventory, t: Topology, n: nat)
  {
    n <= |inv.cabinets| && forall k :: 0 <= k < n ==> CabinetOk(model.dot, t, model.accounts, inv.cabinets[k])
  }

  ghost predicate InventoryOk(model: Model, inv: Inventory, t: Topology, spec: RotationSpec)
  {
    && inv.dot == model.dot
    && (forall id :: id in spec.cabinets ==> InInventory(inv, id))
    && FlatPartitions(t)
    && FirstOk(model, inv, t, |inv.cabinets|)
  }

  ghost predicate InputOk(model: Model, inv: Option<Inventory>, t: Topology, spec: RotationSpec)
  {
    && (forall a :: a in spec.accountSK ==> FindAccount(model.accounts, a).Some?)
    && (if inv.Some? then InventoryOk(model, inv.value, t, spec) else spec.cabinets == {})
  }

  /** The artifacts a cabinet's turn has to read: to retire its identifiers, or to reuse its leaf key. */
  ghost predicate BadCabinetArtifact(f: Files, p: CabinetPath, rotating: bool)
  {
    if rotating then At(f.creds, p).Broken() || At(f.cert, p).Broken() else At(f.leaf, p).Broken()
  }

  ghost predicate UnresolvedImport(accounts: seq<Account>, a: Account)
  {
    exists im <- a.imports :: FindAccount(accounts, im.fromAccount).None?
  }

  /** The JWT a signing-key rotation has to read. */
  ghost predicate JwtUnreadable(f: Files, account: string)
  {
    KeyAt(f, AccountRoot(account)).Good? && At(f.accountJwt, KeyAt(f, AccountRoot(account)).value).Unreadable?
  }

  ghost predicate HalfCA(f: Files) { f.caCert.Missing? != f.caKey.Missing? }

  ghost predicate BrokenSeed(f: Files, spec: RotationSpec, s: Slot)
  {
    KeyAt(f, s).Broken() && !Targeted(spec, s)
  }

  ghost predicate BrokenCabinet(f: Files, inv: Inventory, t: Topology, spec: RotationSpec)
  {
    exists p :: InventoryPath(inv, t, p) && BadCabinetArtifact(f, p, p.id in spec.cabinets)
  }

  ghost predicate AccountJwtInTheWay(f: Files, spec: RotationSpec)
  {
    exists a :: a in spec.accountSK && JwtUnreadable(f, a)
  }

  ghost predicate JwtInTheWay(f: Files, spec: RotationSpec)
  {
    (spec.operatorSK && f.operatorJwt.Unreadable?) || AccountJwtInTheWay(f, spec)
  }

  ghost predicate UnsafeConsumers(model: Model) { exists name :: HasUser(DmzUsers(model), name) && !SafeFileName(name) }

  ghost predicate UndeniedConsumers(model: Model)
  {
    exists name :: HasUser(DmzUsers(model), name) && forall s :: !Denies(DmzUsers(model), name, s)
  }

  ghost predicate UnresolvedImports(model: Model)
  {
    exists a :: a in model.accounts && UnresolvedImport(model.accounts, a)
  }

  /** The failures a run may report, each with what was wrong: at the start `f0`, or still at the end `f`. */
  ghost predicate Cause(f0: Files, f: Files, writesLeft: nat, model: Model, inv: Option<Inventory>, t: Topology,
                        spec: RotationSpec, e: Failure)
  {
    match e
    case Stopped => writesLeft == 0
    case BadSeed => exists s :: InScope(model, inv, t, s) && BrokenSeed(f, spec, s)
    case BadArtifact => inv.Some? && (f.caCert.Broken() || f.caKey.Broken() || BrokenCabinet(f, inv.value, t, spec))
    case PartialCA => inv.Some? && HalfCA(f0)
    case UnreadableJwt => JwtInTheWay(f0, spec)
    case UnsafeConsumer => UnsafeConsumers(model)
    case NoPublishDeny => UndeniedConsumers(model)
    case UnknownImport => UnresolvedImports(model)
    case _ => !InputOk(model, inv, t, spec)
  }

  ghost predicate CabinetCause(f0: Files, f: Files, writesLeft: nat, model: Model, inv: Inventory, t: Topology,
                               spec: RotationSpec, e: Failure)
  {
    match e
    case Stopped => writesLeft == 0
    case BadSeed => exists p :: InventoryPath(inv, t, p) && BrokenSeed(f, spec, CabinetUser(p))
    case BadArtifact => f.caCert.Broken() || f.caKey.Broken() || BrokenCabinet(f, inv, t, spec)
    case PartialCA => HalfCA(f0)
    case RotationWithoutInventory => false
    case AccountNotInModel => false
    case UnreadableJwt => false
    case UnsafeConsumer => false
    case NoPublishDeny => false
    case UnknownImport => false
    case _ => !InventoryOk(model, inv, t, spec)
  }

  ghost predicate ConsumerCause(f: Files, writesLeft: nat, model: Model, e: Failure)
  {
    match e
    case Stopped => writesLeft == 0
    case BadSeed => exists s :: ConsumerSlot(model, s) && KeyAt(f, s).Broken()
    case UnsafeConsumer => UnsafeConsumers(model)
    case NoPublishDeny => UndeniedConsumers(model)
    case _ => false
  }

  /** What may go wrong once the signing keys are there. */
  ghost predicate UserCause(f0: Files, f: Files, writesLeft: nat, model: Model, inv: Option<Inventory>, t: Topology,
                            spec: RotationSpec, e: Failure)
  {
    || (inv.Some? && CabinetCause(f0, f, writesLeft, model, inv.value, t, spec, e))
    || ConsumerCause(f, writesLeft, model, e)
    || (e == Stopped && writesLeft == 0)
    || (e == UnknownImport && UnresolvedImports(model))
  }

  ghost predicate SignerSlot(model: Model, s: Slot)
  {
    s.OperatorRoot? || s.OperatorSK? || AccountSlot(model.accounts, s)
  }

  ghost predicate SignerCause(f0: Files, f: Files, writesLeft: nat, model: Model, spec: RotationSpec, e: Failure)
  {
    || (e == Stopped && writesLeft == 0)
    || (e == BadSeed && exists s :: SignerSlot(model, s) && BrokenSeed(f, spec, s))
    || (e == UnreadableJwt && JwtInTheWay(f0, spec))
  }

  /** The operator's part of the signers' phase, when it fails. */
  lemma OperatorFails(f0: Files, f: Files, writesLeft: nat, model: Model, spec: RotationSpec, e: Failure)
    requires
      || (e == Stopped && writesLeft == 0)
      || (e == BadSeed && KeyAt(f, OperatorRoot).Broken())
      || (e == BadSeed && !spec.operatorSK && KeyAt(f, OperatorSK).Broken())
      || (e == UnreadableJwt && spec.operatorSK && f0.operatorJwt.Unreadable?)
    ensures SignerCause(f0, f, writesLeft, model, spec, e)
  {
    assert KeyAt(f, OperatorRoot).Broken() ==> SignerSlot(model, OperatorRoot) && BrokenSeed(f, spec, OperatorRoot);
    assert !spec.operatorSK && KeyAt(f, OperatorSK).Broken() ==>
        SignerSlot(model, OperatorSK) && BrokenSeed(f, spec, OperatorSK);
  }

  lemma AccountsFail(f0: Files, f1: Files, f: Files, writesLeft: nat, model: Model, spec: RotationSpec, e: Failure)
    requires AccountsCause(f1, f, writesLeft, model.accounts, spec, e)
    requires forall a :: JwtUnreadable(f1, a) <==> JwtUnreadable(f0, a)
    ensures SignerCause(f0, f, writesLeft, model, spec, e)
  {
    hide JwtUnreadable;
    if e.BadSeed? {
      var s :| AccountSlot(model.accounts, s) && BrokenSeed(f, spec, s);
      assert SignerSlot(model, s);
    }
  }

  lemma NoJwtInTheWay(f: Files, accounts: seq<Account>, spec: RotationSpec)
    requires spec.operatorSK ==> !f.operatorJwt.Unreadable?
    requires forall a :: a in accounts && a.name in spec.accountSK ==> !JwtUnreadable(f, a.name)
    requires forall a :: a in spec.accountSK ==> FindAccount(accounts, a).Some?
    ensures !JwtInTheWay(f, spec)
  {
    hide JwtUnreadable;
  }

  lemma UserCauseIsCause(f0: Files, f1: Files, f: Files, writesLeft: nat, model: Model, inv: Option<Inventory>,
                         t: Topology, spec: RotationSpec, e: Failure)
    requires (HalfCA(f1) <==> HalfCA(f0)) && UserCause(f1, f, writesLeft, model, inv, t, spec, e)
    ensures Cause(f0, f, writesLeft, model, inv, t, spec, e)
  {
    hide BrokenCabinet, UnsafeConsumers, UndeniedConsumers, UnresolvedImports;
    if inv.Some? && CabinetCause(f1, f, writesLeft, model, inv.value, t, spec, e) && e.BadSeed? {
      var p :| InventoryPath(inv.value, t, p) && BrokenSeed(f, spec, CabinetUser(p));
      assert InScope(model, inv, t, CabinetUser(p));
    } else if ConsumerCause(f, writesLeft, model, e) && e.BadSeed? {
      var s :| ConsumerSlot(model, s) && KeyAt(f, s).Broken();
      assert InScope(model, inv, t, s) && BrokenSeed(f, spec, s);
    }
  }

  lemma SignerCauseIsCause(f0: Files, f: Files, writesLeft: nat, model: Model, inv: Option<Inventory>, t: Topology,
                           spec: RotationSpec, e: Failure)
    requires SignerCause(f0, f, writesLeft, model, spec, e)
    ensures Cause(f0, f, writesLeft, model, inv, t, spec, e)
  {
    hide JwtInTheWay;
    if e.BadSeed? {
      var s :| SignerSlot(model, s) && BrokenSeed(f, spec, s);
      assert InScope(model, inv, t, s);
    }
  }

  lemma ConsumerIsUser(model: Model, out: seq<Consumer>, i: nat)
    requires AggregateOf(DmzUsers(model), out) && i < |out|
    ensures HasUser(DmzUsers(model), out[i].name)
    ensures out[i].pubDeny == [] ==> forall s :: !Denies(DmzUsers(model), out[i].name, s)
  {
    assert out[i] in out;
    assert ScopeOf(DmzUsers(model), out[i]);
  }

  lemma NoConsumersYet(f: Files, model: Model)
    ensures ConsumersMinted(f, f, model)
  {
  }

  lemma NoDmzAllFit(model: Model)
    requires FindAccount(model.accounts, DMZ_ACCOUNT).None?
    ensures !UnsafeConsumers(model) && !UndeniedConsumers(model)
  {
  }

  /** Every user of the DMZ account is one of the consumers, so checking those is enough. */
  lemma AllConsumersFit(model: Model, out: seq<Consumer>)
    requires AggregateOf(DmzUsers(model), out)
    requires forall k :: 0 <= k < |out| ==> SafeFileName(out[k].name) && out[k].pubDeny != []
    ensures !UnsafeConsumers(model) && !UndeniedConsumers(model)
  {
    hide SafeFileName, Denies, Subscribes;
    forall name | HasUser(DmzUsers(model), name)
      ensures SafeFileName(name) && exists s :: Denies(DmzUsers(model), name, s)
    {
      var c :| c in out && c.name == name;
      var k :| 0 <= k < |out| && out[k] == c;
      assert ScopeOf(DmzUsers(model), c);
      assert c.pubDeny[0] in c.pubDeny;
    }
  }

  /** There are no more consumers than users: their names are different user names. */
  lemma ConsumersAreFew(model: Model, out: seq<Consumer>)
    requires AggregateOf(DmzUsers(model), out)
    ensures |out| <= |DmzUsers(model)|
  {
    var users := DmzUsers(model);
    var names := set c <- out :: c.name;
    DistinctNamesCount(out);
    UserNamesCount(users);
    forall n | n in names ensures n in (set u <- users :: u.user) {
      var c :| c in out && c.name == n;
      assert HasUser(users, n);
    }
    SubsetSize(names, set u <- users :: u.user);
  }

  lemma {:induction false} DistinctNamesCount(out: seq<Consumer>)
    requires Sorting.StrictBy(out, (c: Consumer) => c.name)
    ensures |set c <- out :: c.name| == |out|
  {
    if out != [] {
      var front, last := out[..|out| - 1], out[|out| - 1];
      DistinctNamesCount(front);
      assert out == front + [last];
      assert (set c <- out :: c.name) == (set c <- front :: c.name) + {last.name};
      forall i | 0 <= i < |front| ensures front[i].name != last.name { Text.LessIrreflexive(out[i].name, last.name); }
    }
  }

  lemma {:induction false} UserNamesCount(users: seq<UserTemplate>)
    ensures |set u <- users :: u.user| <= |users|
  {
    if users != [] {
      var front, last := users[..|users| - 1], users[|users| - 1];
      UserNamesCount(front);
      assert users == front + [last];
      assert (set u <- users :: u.user) == (set u <- front :: u.user) + {last.user};
    }
  }

  lemma SubsetSize(a: set<string>, b: set<string>)
    requires a <= b
    ensures |a| <= |b|
  {
    assert b == a + (b - a);
  }

  /** What a consumer's failure says about the model. */
  lemma ConsumerFails(model: Model, out: seq<Consumer>, i: nat)
    requires AggregateOf(DmzUsers(model), out) && i < |out|
    ensures forall f, w :: !SafeFileName(out[i].name) ==> ConsumerCause(f, w, model, UnsafeConsumer)
    ensures forall f, w :: out[i].pubDeny == [] ==> ConsumerCause(f, w, model, NoPublishDeny)
    ensures forall f, w :: KeyAt(f, ConsumerUser(out[i].name)).Broken() ==> ConsumerCause(f, w, model, BadSeed)
    ensures forall f :: ConsumerCause(f, 0, model, Stopped)
  {
    ConsumerIsUser(model, out, i);
    assert ConsumerSlot(model, ConsumerUser(out[i].name));
  }

  lemma CheckCause(f0: Files, f: Files, writesLeft: nat, model: Model, inv: Inventory, t: Topology,
                   idx: map<string, string>, spec: RotationSpec, c: Cabinet)
    requires IndexOf(t, idx) && (forall p <- idx :: idx[p] in t.district) && c in inv.cabinets
    requires CheckCabinet(model.dot, t, idx, model.accounts, c).Failure?
    ensures CabinetCause(f0, f, writesLeft, model, inv, t, spec,
                         CheckCabinet(model.dot, t, idx, model.accounts, c).error)
  {
    CheckIsOk(model.dot, t, idx, model.accounts, c);
    hide CabinetOk;
    var k :| 0 <= k < |inv.cabinets| && inv.cabinets[k] == c;
    assert !InventoryOk(model, inv, t, spec);
  }

  lemma CACause(f0: Files, f: Files, writesLeft: nat, model: Model, inv: Inventory, t: Topology,
                spec: RotationSpec, e: Failure)
    requires
      || (e == Stopped && writesLeft == 0)
      || (e == PartialCA && HalfCA(f0))
      || (e == BadArtifact && (f.caCert.Broken() || f.caKey.Broken()))
    ensures CabinetCause(f0, f, writesLeft, model, inv, t, spec, e)
  {
  }

  lemma KeptCA(f: Files, g: Files, spec: RotationSpec)
    requires Kept(f, g, spec)
    ensures CAKept(f, g)
  {
  }

  /** Where the CA was whole when its phase began, half a CA is no cause of a later failure. */
  lemma CACauseMoves(f0: Files, f1: Files, f: Files, writesLeft: nat, model: Model, inv: Inventory, t: Topology,
                     spec: RotationSpec, r: Outcome<Failure>)
    requires WholeCA(f1)
    requires r.Fail? ==> CabinetCause(f1, f, writesLeft, model, inv, t, spec, r.error)
    ensures r.Fail? ==> CabinetCause(f0, f, writesLeft, model, inv, t, spec, r.error)
  {
    hide BrokenCabinet, InventoryOk;
  }

  lemma NothingMinted(f: Files, past: Past, inv: Inventory, t: Topology)
    ensures InventoryMinted(f, f, past, inv, t)
  {
    assert Minted(f, f, past, {});
    assert f.(caCert := f.caCert, caKey := f.caKey) == f;
    assert InventoryPaths(inv, t, {});
  }

  lemma CAOnly(f: Files, m: Moment, inv: Inventory, t: Topology, spec: RotationSpec, accounts: seq<Account>,
               accts: seq<Acct>)
    requires m.files == f.(caCert := m.files.caCert, caKey := m.files.caKey) && CAKept(f, m.files)
    ensures InventoryMinted(f, m.files, m.past, inv, t) && Kept(f, m.files, spec)
    ensures AllKeyed(f, accounts, accts) ==> AllKeyed(m.files, accounts, accts)
  {
    NothingMinted(m.files, m.past, inv, t);
    assert forall s :: KeyAt(m.files, s) == KeyAt(f, s);
    if AllKeyed(f, accounts, accts) { KeyedStays(f, m.files, accounts, accts); }
    assert Minted(f.(caCert := m.files.caCert, caKey := m.files.caKey), m.files, m.past, {});
    assert InventoryPaths(inv, t, {});
  }

  lemma MintCause(f0: Files, f: Files, writesLeft: nat, model: Model, inv: Inventory, t: Topology, spec: RotationSpec,
                  c: Cabinet, d: string, e: Failure)
    requires c in inv.cabinets && Owns(t, d, c.partition)
    requires var p := CabinetPath(d, c.id);
             || (e == Stopped && writesLeft == 0)
             || (e == BadSeed && KeyAt(f, CabinetUser(p)).Broken() && c.id !in spec.cabinets)
             || (e == BadArtifact && BadCabinetArtifact(f, p, c.id in spec.cabinets))
    ensures CabinetCause(f0, f, writesLeft, model, inv, t, spec, e)
  {
    var p := CabinetPath(d, c.id);
    assert InventoryPath(inv, t, p);
    assert e == BadSeed ==> BrokenSeed(f, spec, CabinetUser(p));
  }

  /** For the model of a validated topology no import is left dangling, and no two accounts share a seed file. */
  lemma ModelIsSound(t: Topology, model: Model)
    requires Validate(t) && ModelOf(t, model)
    ensures DistinctNames(model.accounts)
    ensures forall a <- model.accounts :: !UnresolvedImport(model.accounts, a)
  {
    hide Validate, ModelOf;
    NamesAreDistinct(t, model);
    forall a | a in model.accounts ensures !UnresolvedImport(model.accounts, a) {
      forall im | im in a.imports ensures FindAccount(model.accounts, im.fromAccount).Some? {
        ImportsAreExported(t, model, a, im);
      }
    }
  }

  lemma ConsumersAreFit(t: Topology, model: Model, name: string)
    requires Validate(t) && ModelOf(t, model) && HasUser(DmzUsers(model), name)
    ensures SafeFileName(name) && Denies(DmzUsers(model), name, ">")
  {
    hide Validate, ModelOf, Token;
    DmzUsersAreShares(t, model);
    Sorting.SameMembers(DmzUsers(model), Templates(Shares(t)));
    var u :| u in DmzUsers(model) && u.user == name;
    TemplatesOfShares(Shares(t), u);
    var s :| s in Shares(t) && Complete(s) && Template(s) == u;
    ShareConsumer(t, s);
    TokenIsSafe(name);
  }

  lemma ShareConsumer(t: Topology, s: Share)
    requires Validate(t) && s in Shares(t)
    ensures s.consumer.Some? && Token(s.consumer.value)
  {
    assert ValidShare(t.dot, s);
  }

  lemma TokenIsSafe(name: string)
    requires Token(name)
    ensures SafeFileName(name)
  {
    assert name[0] != '.';
  }

  /**
    With a validated topology, its own model and an inventory that passes the boundary checks, a run
    can only fail on what is on disk, or on the machine stopping.
   */
  lemma OnlyTheDiskFails(f0: Files, f: Files, writesLeft: nat, t: Topology, model: Model, inv: Option<Inventory>,
                         spec: RotationSpec, e: Failure)
    requires Validate(t) && ModelOf(t, model) && InputOk(model, inv, t, spec)
    requires Cause(f0, f, writesLeft, model, inv, t, spec, e)
    ensures e == Stopped || e == BadSeed || e == BadArtifact || e == PartialCA || e == UnreadableJwt
  {
    hide Validate, ModelOf;
    ModelIsSound(t, model);
    forall name | HasUser(DmzUsers(model), name) ensures SafeFileName(name) && Denies(DmzUsers(model), name, ">") {
      ConsumersAreFit(t, model, name);
    }
  }

  lemma ImportCause(f: Files, accounts: seq<Account>, accts: seq<Acct>, i: nat)
    requires AllKeyed(f, accounts, accts) && i < |accts| && ResolveImports(accts, accts[i].def.imports).None?
    ensures exists a :: a in accounts && UnresolvedImport(accounts, a)
  {
    ImportUnresolved(accounts, accts, accts[i].def.imports);
    assert accts[i].def in accounts && UnresolvedImport(accounts, accts[i].def);
  }

  lemma SameDefs(f: Files, accounts: seq<Account>, accts: seq<Acct>)
    requires AllKeyed(f, accounts, accts)
    ensures |accts| == |accounts| && forall i :: 0 <= i < |accts| ==> accts[i].def == accounts[i]
  {
  }

  ghost predicate ResolvedSoFar(accts: seq<Acct>, n: nat)
  {
    n <= |accts| && forall k :: 0 <= k < n ==> ResolveImports(accts, accts[k].def.imports).Some?
  }

  lemma ResolvedNext(accts: seq<Acct>, i: nat)
    requires i < |accts| && ResolvedSoFar(accts, i) && ResolveImports(accts, accts[i].def.imports).Some?
    ensures ResolvedSoFar(accts, i + 1)
  {
  }

  lemma {:induction false} AllImportsResolved(model: Model, accts: seq<Acct>)
    requires |accts| == |model.accounts| && forall i :: 0 <= i < |accts| ==> accts[i].def == model.accounts[i]
    requires ResolvedSoFar(accts, |accts|)
    ensures !UnresolvedImports(model)
  {
    forall a | a in model.accounts ensures !UnresolvedImport(model.accounts, a) {
      var k :| 0 <= k < |model.accounts| && model.accounts[k] == a;
      ImportsResolve(model.accounts, accts, a.imports);
    }
  }

  lemma {:induction false} ImportsResolve(accounts: seq<Account>, accts: seq<Acct>, imports: seq<Import>)
    requires |accts| == |accounts| && forall i :: 0 <= i < |accts| ==> accts[i].def == accounts[i]
    requires ResolveImports(accts, imports).Some?
    ensures forall im <- imports :: FindAccount(accounts, im.fromAccount).Some?
  {
    if imports != [] {
      FindAcctAgrees(accounts, accts, imports[0].fromAccount);
      ImportsResolve(accounts, accts, imports[1..]);
      assert imports == [imports[0]] + imports[1..];
    }
  }

  lemma {:induction false} ImportUnresolved(accounts: seq<Account>, accts: seq<Acct>, imports: seq<Import>)
    requires |accts| == |accounts| && forall i :: 0 <= i < |accts| ==> accts[i].def == accounts[i]
    requires ResolveImports(accts, imports).None?
    ensures exists im <- imports :: FindAccount(accounts, im.fromAccount).None?
  {
    FindAcctAgrees(accounts, accts, imports[0].fromAccount);
    if FindAcct(accts, imports[0].fromAccount).Some? {
      ImportUnresolved(accounts, accts, imports[1..]);
      var im :| im in imports[1..] && FindAccount(accounts, im.fromAccount).None?;
      assert im in imports;
    } else {
      assert imports[0] in imports;
    }
  }

  /** mintCabinets' step-by-step checks come to the boundary rule. */
  lemma CheckIsOk(dot: string, t: Topology, idx: map<string, string>, accounts: seq<Account>, c: Cabinet)
    requires IndexOf(t, idx) && forall p <- idx :: idx[p] in t.district
    ensures CheckCabinet(dot, t, idx, accounts, c).Success? <==> CabinetOk(dot, t, accounts, c)
    ensures CheckCabinet(dot, t, idx, accounts, c).Success? ==>
              var d := CheckCabinet(dot, t, idx, accounts, c).value;
              Owns(t, d, c.partition) && FindAccount(accounts, DistrictAccountName(d)).Some?
  {
    assert forall d :: Owns(t, d, c.partition) <==> c.partition in idx && idx[c.partition] == d;
  }

  // ---- how much a run writes ----

  /** The keys a rotation of a signing key has to put on record. */
  function OperatorDeclared(f: Files): nat { if f.operatorJwt.Good? then |f.operatorJwt.value.signingKeys| else 0 }

  function AccountDeclared(f: Files, account: string): nat
  {
    var root := KeyAt(f, AccountRoot(account));
    if root.Good? && At(f.accountJwt, root.value).Good? then |f.accountJwt[root.value].value.signingKeys| else 0
  }

  /** Root, signing key and the records about old signing keys, over a list of accounts. */
  function AccountWrites(f: Files, accounts: seq<Account>): nat
  {
    if accounts == [] then 0
    else AccountWrites(f, accounts[..|accounts| - 1]) + 2 + AccountDeclared(f, accounts[|accounts| - 1].name)
  }

  /** A bound on the writes of one run, known before it starts. */
  function RunWrites(f: Files, model: Model, inv: Option<Inventory>): nat
  {
    3 + OperatorDeclared(f) + AccountWrites(f, model.accounts)
    + (if inv.Some? then 2 + 5 * |inv.value.cabinets| else 0)
    + 2 * |DmzUsers(model)| + |model.accounts| + 2
  }

  // ---- pure steps ----

  /** captureRetired: the public identifiers the rotation is about to overwrite. */
  function CaptureRetired(f: Files, p: CabinetPath, account: string, now: int): Result<Option<RetiredRecord>, Failure>
  {
    var creds, cert := At(f.creds, p), At(f.cert, p);
    if creds.Broken() || cert.Broken() then Failure(BadArtifact)
    else
      var pub := if creds.Good? then Some(creds.value.subject) else None;
      var serial := if cert.Good? then Some(cert.value.serial) else None;
      if pub.None? && serial.None? then Success(None)
      else Success(Some(RetiredRecord(p.id, p.district, account, pub, serial, Some(now))))
  }

  /** The checks mintCabinets makes on one cabinet, in its order; the district it resolves to. */
  function CheckCabinet(dot: string, t: Topology, idx: map<string, string>, accounts: seq<Account>, c: Cabinet)
    : Result<string, Failure>
    requires forall p <- idx :: idx[p] in t.district
  {
    if c.filter == "" then Failure(FilterRequired)
    else if c.partition !in idx then Failure(UndefinedPartition)
    else
      var d := idx[c.partition];
      if !FilterUnderDistrict(dot, d, t.district[d].subjectPrefix, c.filter) then Failure(FilterOutside)
      else if FindAccount(accounts, DistrictAccountName(d)).None? then Failure(AccountMissing)
      else Success(d)
  }

  predicate SafeFileName(name: string) { '/' !in name && '\\' !in name && name != "." && name != ".." }

  function FindAcct(accts: seq<Acct>, name: string): (r: Option<Acct>)
    ensures r.Some? ==> r.value in accts && r.value.def.name == name
  {
    if accts == [] then None
    else if accts[0].def.name == name then Some(accts[0])
    else FindAcct(accts[1..], name)
  }

  /** The lookup maps of a run name exactly the accounts of the model. */
  lemma {:induction false} FindAcctAgrees(accounts: seq<Account>, accts: seq<Acct>, name: string)
    requires |accts| == |accounts| && forall i :: 0 <= i < |accts| ==> accts[i].def == accounts[i]
    ensures FindAcct(accts, name).Some? <==> FindAccount(accounts, name).Some?
  {
    if accts != [] {
      FindAcctAgrees(accounts[1..], accts[1..], name);
    }
  }

  function ResolveImports(accts: seq<Acct>, imports: seq<Import>): (r: Option<seq<JwtImport>>)
    ensures r.Some? ==> |r.value| == |imports|
  {
    if imports == [] then Some([])
    else
      var from, rest := FindAcct(accts, imports[0].fromAccount), ResolveImports(accts, imports[1..]);
      if from.None? || rest.None? then None
      else Some([JwtImport(imports[0].subject, from.value.pub)] + rest.value)
  }

  lemma {:induction false} ResolveImportsCorrect(f: Files, accts: seq<Acct>, imports: seq<Import>)
    requires forall a :: a in accts ==> Keyed(f, a)
    requires ResolveImports(accts, imports).Some?
    ensures ImportsResolved(f, imports, ResolveImports(accts, imports).value)
  {
    if imports != [] {
      ResolveImportsCorrect(f, accts, imports[1..]);
      var r := ResolveImports(accts, imports).value;
      forall i | 0 <= i < |imports|
        ensures r[i].subject == imports[i].subject
        ensures KeyAt(f, AccountRoot(imports[i].fromAccount)) == Good(r[i].account)
      {
        if i > 0 { assert imports[i] == imports[1..][i - 1]; }
      }
    }
  }
}

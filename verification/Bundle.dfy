/**
  The credential bundle on disk and the writes that change it (internal/issuance).

  A run is a sequence of single-file writes and single-line appends and may stop between any two
  of them; the next run starts from the files it finds. `Guard` says of one write what the order
  of the statements in issuance.go gives it at that point. `Safety` shows that any history of
  guarded writes keeps every retired key on record, at every point where it could be cut off.

  A key stands for a key pair: its number is what a seed file holds and what a JWT shows.
 */
module Bundle {
  import opened Basics
  import opened Naming

  type Key = nat

  /** What reading one path gives. */
  datatype Content<+T> = Missing | Unreadable | Malformed | Good(value: T) {
    /** There, but of no use. */
    predicate Broken() { Unreadable? || Malformed? }
  }

  function At<K(!new), T>(m: map<K, Content<T>>, k: K): Content<T>
  {
    if k in m then m[k] else Missing
  }

  // ---- files ----

  datatype CabinetPath = CabinetPath(district: string, id: string)

  /** The seed files: one per key pair that is minted once and then reused. */
  datatype Slot =
    | OperatorRoot
    | OperatorSK
    | AccountRoot(account: string)
    | AccountSK(account: string)
    | CabinetUser(path: CabinetPath)
    | ConsumerUser(consumer: string)

  datatype OperatorJwt = OperatorJwt(subject: Key, name: string, signingKeys: set<Key>, issuer: Key)

  datatype JwtImport = JwtImport(subject: string, account: Key)

  datatype AccountJwt = AccountJwt(
    subject: Key,
    name: string,
    signingKeys: set<Key>,
    exports: seq<string>,
    imports: seq<JwtImport>,
    jetStream: bool,
    revocations: map<Key, int>,
    issuer: Key)

  datatype Permissions = Permissions(pubAllow: seq<string>, pubDeny: seq<string>, subAllow: seq<string>)

  datatype UserJwt = UserJwt(
    subject: Key,
    name: string,
    issuerAccount: Key,
    permissions: Permissions,
    issuedAt: int,
    expires: int,
    issuer: Key)

  datatype Cert = Cert(serial: Key, commonName: string, leaf: Key, issuer: Key)

  datatype RetiredRecord = RetiredRecord(
    cabinet: string,
    district: string,
    account: string,
    oldUserPub: Option<Key>,
    oldCertSerial: Option<Key>,
    rotatedAt: Option<int>)

  datatype RetiredSK = RetiredSK(oldPub: Key, rotatedAt: int)

  datatype RetiredAccountSK = RetiredAccountSK(account: string, oldPub: Key, rotatedAt: int)

  datatype Files = Files(
    keys: map<Slot, Content<Key>>,
    operatorJwt: Content<OperatorJwt>,
    accountJwt: map<Key, Content<AccountJwt>>,
    caCert: Content<Key>,
    caKey: Content<Key>,
    creds: map<CabinetPath, Content<UserJwt>>,
    leaf: map<CabinetPath, Content<Key>>,
    cert: map<CabinetPath, Content<Cert>>,
    consumerCreds: map<string, Content<UserJwt>>,
    retired: seq<RetiredRecord>,
    retiredOperatorSK: seq<RetiredSK>,
    retiredAccountSK: seq<RetiredAccountSK>,
    index: set<(string, Key)>,
    resolverConf: bool)

  function KeyAt(f: Files, s: Slot): Content<Key> { At(f.keys, s) }

  function AccountOf(p: CabinetPath): string { DistrictAccountName(p.district) }

  // ---- the three logs ----

  predicate Logged(log: seq<RetiredRecord>, account: string, k: Key)
  {
    exists r <- log :: r.account == account && r.oldUserPub == Some(k)
  }

  predicate OperatorLogged(log: seq<RetiredSK>, k: Key)
  {
    exists r <- log :: r.oldPub == k
  }

  predicate AccountLogged(log: seq<RetiredAccountSK>, account: string, k: Key)
  {
    exists r <- log :: r.account == account && r.oldPub == k
  }

  predicate Names(r: RetiredRecord, account: string, k: Key) { r.account == account && r.oldUserPub == Some(k) }

  /** The records about one user key of one account. */
  function RecordsOf(log: seq<RetiredRecord>, account: string, k: Key): set<RetiredRecord>
  {
    set r | r in log && Names(r, account, k)
  }

  /** Whatever was issued up to this time is revoked; a record whose time does not parse counts as of now. */
  function TimeOf(r: RetiredRecord, now: int): int { if r.rotatedAt.Some? then r.rotatedAt.value else now }

  /** The revocations a log makes for one account: each retired key, with the latest time on record. */
  ghost predicate RevocationsOf(log: seq<RetiredRecord>, account: string, now: int, m: map<Key, int>)
  {
    && (forall k: Key :: k in m <==> Logged(log, account, k))
    && (forall k: Key :: k in m ==> exists r :: r in RecordsOf(log, account, k) && m[k] == TimeOf(r, now))
    && forall k: Key, r :: r in RecordsOf(log, account, k) ==> TimeOf(r, now) <= m[k]
  }

  lemma RevocationsStep(log: seq<RetiredRecord>, account: string, now: int, m: map<Key, int>, r: RetiredRecord)
    requires RevocationsOf(log, account, now, m)
    ensures r.account != account || r.oldUserPub.None? ==> RevocationsOf(log + [r], account, now, m)
    ensures r.account == account && r.oldUserPub.Some? ==>
              var k := r.oldUserPub.value;
              if k in m && m[k] > TimeOf(r, now) then RevocationsOf(log + [r], account, now, m)
              else RevocationsOf(log + [r], account, now, m[k := TimeOf(r, now)])
  {
    hide TimeOf;
    forall k: Key { LoggedAppend(log, r, account, k); }
    forall k: Key, x ensures x in RecordsOf(log + [r], account, k) <==>
        x in RecordsOf(log, account, k) || (x == r && Names(r, account, k)) {
      assert x in log + [r] <==> x in log || x == r;
    }
    if r.account == account && r.oldUserPub.Some? {
      var k := r.oldUserPub.value;
      assert r in RecordsOf(log + [r], account, k);
    }
  }

  /** A server turns away what was issued no later than the time on record for its key. */
  predicate Covers(j: AccountJwt, u: UserJwt)
  {
    u.subject in j.revocations && j.revocations[u.subject] >= u.issuedAt
  }

  /** The creds file of a cabinet is revoked by its account's JWT. */
  predicate CredsRevoked(f: Files, p: CabinetPath)
  {
    var root := KeyAt(f, AccountRoot(AccountOf(p)));
    && At(f.creds, p).Good? && root.Good? && At(f.accountJwt, root.value).Good?
    && Covers(f.accountJwt[root.value].value, f.creds[p].value)
  }

  // ---- writes ----

  datatype Write =
    | PutKey(slot: Slot, key: Key)
    | PutOperatorJwt(operator: OperatorJwt)
    | PutAccountJwt(account: AccountJwt)
    | PutCaCert(ca: Key)
    | PutCaKey(ca: Key)
    | PutCreds(path: CabinetPath, user: UserJwt)
    | PutLeaf(path: CabinetPath, leaf: Key)
    | PutCert(path: CabinetPath, cert: Cert)
    | PutConsumerCreds(consumer: string, user: UserJwt)
    | LogRetired(record: RetiredRecord)
    | LogOperatorSK(operatorRecord: RetiredSK)
    | LogAccountSK(accountRecord: RetiredAccountSK)
    | PutIndex(lines: set<(string, Key)>)
    | PutResolverConf

  /** Each write touches one file or appends one line. */
  function Apply(f: Files, w: Write): Files
  {
    match w
    case PutKey(s, k) => f.(keys := f.keys[s := Good(k)])
    case PutOperatorJwt(j) => f.(operatorJwt := Good(j))
    case PutAccountJwt(j) => f.(accountJwt := f.accountJwt[j.subject := Good(j)])
    case PutCaCert(k) => f.(caCert := Good(k))
    case PutCaKey(k) => f.(caKey := Good(k))
    case PutCreds(p, j) => f.(creds := f.creds[p := Good(j)])
    case PutLeaf(p, k) => f.(leaf := f.leaf[p := Good(k)])
    case PutCert(p, c) => f.(cert := f.cert[p := Good(c)])
    case PutConsumerCreds(c, j) => f.(consumerCreds := f.consumerCreds[c := Good(j)])
    case LogRetired(r) => f.(retired := f.retired + [r])
    case LogOperatorSK(r) => f.(retiredOperatorSK := f.retiredOperatorSK + [r])
    case LogAccountSK(r) => f.(retiredAccountSK := f.retiredAccountSK + [r])
    case PutIndex(ls) => f.(index := ls)
    case PutResolverConf => f.(resolverConf := true)
  }

  /** What has ever been on disk, whether or not it still is. */
  datatype Past = Past(
    minted: map<Key, Slot>,
    published: set<(CabinetPath, Key)>,
    operatorDeclared: set<Key>,
    accountDeclared: set<(string, Key)>)

  function Note(past: Past, w: Write): Past
  {
    match w
    case PutKey(s, k) => past.(minted := past.minted[k := s])
    case PutCreds(p, j) => past.(published := past.published + {(p, j.subject)})
    case PutOperatorJwt(j) => past.(operatorDeclared := past.operatorDeclared + j.signingKeys)
    case PutAccountJwt(j) => past.(accountDeclared := past.accountDeclared + set k | k in j.signingKeys :: (j.name, k))
    case _ => past
  }

  datatype Moment = Moment(files: Files, past: Past)

  function Step(m: Moment, w: Write): Moment { Moment(Apply(m.files, w), Note(m.past, w)) }

  // ---- the discipline of the writes ----

  predicate CredsName(f: Files, p: CabinetPath, k: Key)
  {
    At(f.creds, p).Good? && f.creds[p].value.subject == k
  }

  predicate OperatorDeclares(f: Files, k: Key)
  {
    f.operatorJwt.Good? && k in f.operatorJwt.value.signingKeys
  }

  predicate AccountDeclares(f: Files, account: string, k: Key)
  {
    var root := KeyAt(f, AccountRoot(account));
    root.Good? && At(f.accountJwt, root.value).Good? && k in f.accountJwt[root.value].value.signingKeys
  }

  /** A key may replace another only once everything signed or named with that one is on record. */
  ghost predicate MayReplace(f: Files, s: Slot)
  {
    match s
    case OperatorSK => forall k: Key :: OperatorDeclares(f, k) ==> OperatorLogged(f.retiredOperatorSK, k)
    case AccountSK(a) => forall k: Key :: AccountDeclares(f, a, k) ==> AccountLogged(f.retiredAccountSK, a, k)
    case CabinetUser(p) => forall k: Key :: CredsName(f, p, k) ==> Logged(f.retired, AccountOf(p), k)
    case _ => KeyAt(f, s) == Missing
  }

  /** What holds when issuance.go makes each write. */
  ghost predicate Guard(m: Moment, w: Write)
  {
    var f := m.files;
    match w
    case PutKey(s, k) => k !in m.past.minted && MayReplace(f, s)
    case PutOperatorJwt(j) => exists k: Key :: KeyAt(f, OperatorSK) == Good(k) && j.signingKeys == {k}
    case PutAccountJwt(j) =>
      && KeyAt(f, AccountRoot(j.name)) == Good(j.subject)
      && (exists k: Key :: KeyAt(f, AccountSK(j.name)) == Good(k) && j.signingKeys == {k})
      && exists now: int :: RevocationsOf(f.retired, j.name, now, j.revocations)
    case PutCaCert(k) => f.caCert == Missing && f.caKey == Missing
    case PutCaKey(k) => f.caCert == Good(k) && f.caKey == Missing
    case PutCreds(p, j) => KeyAt(f, CabinetUser(p)) == Good(j.subject)
    case LogRetired(r) => r.rotatedAt.Some? && (r.oldUserPub.Some? ==> r.oldUserPub.value in m.past.minted)
    case _ => true
  }

  /** A record about a signing key may be made at any time. */
  lemma SKRecord(m: Moment, r: RetiredSK)
    ensures Guard(m, LogOperatorSK(r))
    ensures Apply(m.files, LogOperatorSK(r)) == m.files.(retiredOperatorSK := m.files.retiredOperatorSK + [r])
  {
  }

  lemma AccountSKRecord(m: Moment, r: RetiredAccountSK)
    ensures Guard(m, LogAccountSK(r))
    ensures Apply(m.files, LogAccountSK(r)) == m.files.(retiredAccountSK := m.files.retiredAccountSK + [r])
  {
  }

  // ---- what every moment satisfies ----

  /** Every key on disk was minted, for the one seed file it is in. */
  ghost predicate Owned(m: Moment)
  {
    && (forall s :: KeyAt(m.files, s).Good? ==>
        KeyAt(m.files, s).value in m.past.minted && m.past.minted[KeyAt(m.files, s).value] == s)
    && (forall p, k: Key :: (p, k) in m.past.published ==> k in m.past.minted && m.past.minted[k] == CabinetUser(p))
    && (forall p, k: Key :: CredsName(m.files, p, k) ==> (p, k) in m.past.published)
    && (forall k: Key :: k in m.files.accountJwt ==> k in m.past.minted)
    && (forall r :: r in m.files.retired && r.oldUserPub.Some? ==> r.oldUserPub.value in m.past.minted)
  }

  /** A published user key that is not on record is the current one, and the creds file still names it. */
  ghost predicate CabinetsAccounted(m: Moment)
  {
    forall p, k: Key :: (p, k) in m.past.published ==>
      || (KeyAt(m.files, CabinetUser(p)) == Good(k) && CredsName(m.files, p, k))
      || Logged(m.files.retired, AccountOf(p), k)
  }

  ghost predicate OperatorAccounted(m: Moment)
  {
    && (forall k: Key :: OperatorDeclares(m.files, k) ==> k in m.past.operatorDeclared)
    && forall k: Key :: k in m.past.operatorDeclared ==>
         || (KeyAt(m.files, OperatorSK) == Good(k) && OperatorDeclares(m.files, k))
         || OperatorLogged(m.files.retiredOperatorSK, k)
  }

  ghost predicate AccountsAccounted(m: Moment)
  {
    && (forall a, k: Key :: AccountDeclares(m.files, a, k) ==> (a, k) in m.past.accountDeclared)
    && forall a, k: Key :: (a, k) in m.past.accountDeclared ==>
         || (KeyAt(m.files, AccountSK(a)) == Good(k) && AccountDeclares(m.files, a, k))
         || AccountLogged(m.files.retiredAccountSK, a, k)
  }

  /** The CA's certificate and key belong together. */
  predicate CAPaired(f: Files) { f.caCert.Good? && f.caKey.Good? ==> f.caKey == f.caCert }

  predicate WholeCA(f: Files) { f.caCert.Good? && f.caKey == f.caCert }

  ghost predicate Inv(m: Moment)
  {
    Owned(m) && CabinetsAccounted(m) && OperatorAccounted(m) && AccountsAccounted(m) && CAPaired(m.files)
  }

  // ---- one write ----

  lemma LoggedAppend(log: seq<RetiredRecord>, r: RetiredRecord, account: string, k: Key)
    ensures Logged(log + [r], account, k) <==>
              Logged(log, account, k) || (r.account == account && r.oldUserPub == Some(k))
  {
    assert forall x :: x in log + [r] <==> x in log || x == r;
  }

  lemma OperatorLoggedAppend(log: seq<RetiredSK>, r: RetiredSK, k: Key)
    ensures OperatorLogged(log + [r], k) <==> OperatorLogged(log, k) || r.oldPub == k
  {
    assert forall x :: x in log + [r] <==> x in log || x == r;
  }

  lemma AccountLoggedAppend(log: seq<RetiredAccountSK>, r: RetiredAccountSK, account: string, k: Key)
    ensures AccountLogged(log + [r], account, k) <==>
              AccountLogged(log, account, k) || (r.account == account && r.oldPub == k)
  {
    assert forall x :: x in log + [r] <==> x in log || x == r;
  }

  lemma StepOwned(m: Moment, w: Write)
    requires Owned(m) && Guard(m, w)
    ensures Owned(Step(m, w))
  {
    hide MayReplace, Logged, AccountLogged, OperatorLogged;
    var n := Step(m, w);
    forall s ensures KeyAt(n.files, s) == if w.PutKey? && w.slot == s then Good(w.key) else KeyAt(m.files, s) {
    }
  }

  lemma StepCabinets(m: Moment, w: Write)
    requires Owned(m) && CabinetsAccounted(m) && Guard(m, w)
    ensures CabinetsAccounted(Step(m, w))
  {
    hide AccountDeclares, OperatorDeclares, Logged, AccountLogged, OperatorLogged;
    if w.LogRetired? {
      forall a, k: Key { LoggedAppend(m.files.retired, w.record, a, k); }
    }
  }

  lemma StepOperator(m: Moment, w: Write)
    requires OperatorAccounted(m) && Guard(m, w)
    ensures OperatorAccounted(Step(m, w))
  {
    hide AccountDeclares, CredsName, Logged, AccountLogged, OperatorLogged;
    if w.LogOperatorSK? {
      forall k: Key { OperatorLoggedAppend(m.files.retiredOperatorSK, w.operatorRecord, k); }
    }
  }

  lemma StepAccounts(m: Moment, w: Write)
    requires Owned(m) && AccountsAccounted(m) && Guard(m, w)
    ensures AccountsAccounted(Step(m, w))
  {
    if w.PutKey? {
      StepAccountsKey(m, w.slot, w.key);
    } else if w.PutAccountJwt? {
      StepAccountsJwt(m, w.account);
    } else {
      hide OperatorDeclares, CredsName, Logged, AccountLogged, OperatorLogged, Owned;
      if w.LogAccountSK? {
        forall a, k: Key { AccountLoggedAppend(m.files.retiredAccountSK, w.accountRecord, a, k); }
      }
      assert forall a, k: Key :: AccountDeclares(Step(m, w).files, a, k) == AccountDeclares(m.files, a, k);
    }
  }

  lemma StepAccountsKey(m: Moment, s: Slot, k: Key)
    requires Owned(m) && AccountsAccounted(m) && Guard(m, PutKey(s, k))
    ensures AccountsAccounted(Step(m, PutKey(s, k)))
  {
    hide OperatorDeclares, CredsName, Logged, AccountLogged, OperatorLogged;
    var n := Step(m, PutKey(s, k));
    forall a, d: Key ensures AccountDeclares(n.files, a, d) == (s != AccountRoot(a) && AccountDeclares(m.files, a, d)) {
    }
    assert s.AccountRoot? ==> KeyAt(m.files, s) == Missing;
  }

  lemma StepAccountsJwt(m: Moment, j: AccountJwt)
    requires Owned(m) && AccountsAccounted(m) && Guard(m, PutAccountJwt(j))
    ensures AccountsAccounted(Step(m, PutAccountJwt(j)))
  {
    hide OperatorDeclares, CredsName, Logged, AccountLogged, OperatorLogged;
    var n := Step(m, PutAccountJwt(j));
    forall a, d: Key
      ensures AccountDeclares(n.files, a, d) ==
                (if a == j.name then d in j.signingKeys else AccountDeclares(m.files, a, d))
    {
    }
    forall a, d: Key ensures (a, d) in n.past.accountDeclared <==>
        (a, d) in m.past.accountDeclared || (a == j.name && d in j.signingKeys) {
    }
  }

  lemma StepInv(m: Moment, w: Write)
    requires Inv(m) && Guard(m, w)
    ensures Inv(Step(m, w))
  {
    StepOwned(m, w);
    StepCabinets(m, w);
    StepOperator(m, w);
    StepAccounts(m, w);
    hide RevocationsOf, MayReplace;
  }

  /** A missing seed file may always be minted: whatever it signed or named is on record. */
  lemma MissingMayReplace(m: Moment, s: Slot)
    requires Inv(m) && KeyAt(m.files, s) == Missing
    ensures MayReplace(m.files, s)
  {
  }

  lemma CredsOwned(m: Moment, p: CabinetPath, k: Key)
    requires Inv(m) && CredsName(m.files, p, k)
    ensures k in m.past.minted && m.past.minted[k] == CabinetUser(p)
  {
  }

  lemma LoggedMinted(m: Moment, account: string, k: Key)
    requires Inv(m) && Logged(m.files.retired, account, k)
    ensures k in m.past.minted
  {
  }

  lemma KeyOwned(m: Moment, s: Slot)
    requires Inv(m) && KeyAt(m.files, s).Good?
    ensures KeyAt(m.files, s).value in m.past.minted && m.past.minted[KeyAt(m.files, s).value] == s
  {
  }

  // ---- all histories ----

  function Replay(m: Moment, ws: seq<Write>): Moment
  {
    if ws == [] then m else Step(Replay(m, ws[..|ws| - 1]), ws[|ws| - 1])
  }

  ghost predicate Disciplined(m: Moment, ws: seq<Write>)
  {
    ws == [] || (Disciplined(m, ws[..|ws| - 1]) && Guard(Replay(m, ws[..|ws| - 1]), ws[|ws| - 1]))
  }

  /** Every key ever shown is in use where it was shown, or on record. */
  ghost predicate NothingForgotten(m: Moment)
  {
    && (forall p, k: Key :: (p, k) in m.past.published ==>
          KeyAt(m.files, CabinetUser(p)) == Good(k) || Logged(m.files.retired, AccountOf(p), k))
    && (forall k: Key :: k in m.past.operatorDeclared ==>
        OperatorDeclares(m.files, k) || OperatorLogged(m.files.retiredOperatorSK, k))
    && (forall a, k: Key :: (a, k) in m.past.accountDeclared ==>
          AccountDeclares(m.files, a, k) || AccountLogged(m.files.retiredAccountSK, a, k))
  }

  /** At every point where a history of guarded writes can be cut off, nothing is forgotten. */
  lemma {:induction false} Safety(start: Moment, ws: seq<Write>, cut: nat)
    requires Inv(start) && Disciplined(start, ws) && cut <= |ws|
    ensures Inv(Replay(start, ws[..cut])) && NothingForgotten(Replay(start, ws[..cut]))
  {
    hide Inv, Guard;
    if cut < |ws| {
      Safety(start, ws[..|ws| - 1], cut);
      assert ws[..|ws| - 1][..cut] == ws[..cut];
    } else {
      assert ws[..cut] == ws;
      if ws != [] {
        var front := ws[..|ws| - 1];
        Safety(start, front, |front|);
        assert front[..|front|] == front;
        StepInv(Replay(start, front), ws[|ws| - 1]);
      }
      InvForgetsNothing(Replay(start, ws));
    }
  }

  lemma InvForgetsNothing(m: Moment)
    requires Inv(m)
    ensures NothingForgotten(m)
  {
  }

  lemma ReplayNext(m: Moment, ws: seq<Write>, w: Write)
    ensures Replay(m, ws + [w]) == Step(Replay(m, ws), w)
    ensures Disciplined(m, ws + [w]) <==> Disciplined(m, ws) && Guard(Replay(m, ws), w)
  {
    assert (ws + [w])[..|ws|] == ws;
  }

  /** Later in a disciplined history every key still belongs to the seed file it was minted for. */
  ghost predicate Grown(before: Past, after: Past)
  {
    forall k: Key :: k in before.minted ==> k in after.minted && after.minted[k] == before.minted[k]
  }

  lemma {:induction false} MintedGrows(start: Moment, ws: seq<Write>, cut: nat)
    requires Disciplined(start, ws) && cut <= |ws|
    ensures Grown(Replay(start, ws[..cut]).past, Replay(start, ws).past)
  {
    if cut < |ws| {
      var front := ws[..|ws| - 1];
      MintedGrows(start, front, cut);
      assert front[..cut] == ws[..cut];
      StepGrown(Replay(start, front), ws[|ws| - 1]);
    } else {
      assert ws[..cut] == ws;
    }
  }

  lemma StepGrown(m: Moment, w: Write)
    requires Guard(m, w)
    ensures Grown(m.past, Step(m, w).past)
  {
    hide MayReplace;
  }

  /** A write never spoils a file: what is broken later was broken before. */
  ghost predicate NoNewDamage(f: Files, g: Files)
  {
    && (forall s :: KeyAt(g, s).Broken() ==> KeyAt(g, s) == KeyAt(f, s))
    && (forall p :: At(g.creds, p).Broken() ==> At(g.creds, p) == At(f.creds, p))
    && (forall p :: At(g.leaf, p).Broken() ==> At(g.leaf, p) == At(f.leaf, p))
    && (forall p :: At(g.cert, p).Broken() ==> At(g.cert, p) == At(f.cert, p))
    && (forall k: Key :: At(g.accountJwt, k).Broken() ==> At(g.accountJwt, k) == At(f.accountJwt, k))
    && (g.caCert.Broken() ==> g.caCert == f.caCert) && (g.caKey.Broken() ==> g.caKey == f.caKey)
    && (g.operatorJwt.Broken() ==> g.operatorJwt == f.operatorJwt)
  }

  lemma {:induction false} WritesDoNoDamage(start: Moment, ws: seq<Write>, cut: nat)
    requires cut <= |ws|
    ensures NoNewDamage(Replay(start, ws[..cut]).files, Replay(start, ws).files)
  {
    if cut < |ws| {
      var front := ws[..|ws| - 1];
      WritesDoNoDamage(start, front, cut);
      assert front[..cut] == ws[..cut];
      OneWriteDoesNoDamage(Replay(start, front).files, ws[|ws| - 1]);
    } else {
      assert ws[..cut] == ws;
    }
  }

  lemma OneWriteDoesNoDamage(f: Files, w: Write)
    ensures NoNewDamage(f, Apply(f, w))
  {
  }

  /** A moment reached from a sound start by a disciplined history, with all keys below `bound`. */
  ghost predicate Reached(start: Moment, ws: seq<Write>, m: Moment, bound: Key)
  {
    && Inv(start) && Disciplined(start, ws) && Replay(start, ws) == m
    && Inv(m)
    && (forall k: Key :: k in m.past.minted ==> k < bound)
    && ArtifactsBelow(m.files, bound)
  }

  /** Leaf keys and certificate serials come from the same count as key pairs. */
  ghost predicate ArtifactsBelow(f: Files, bound: Key)
  {
    && (forall p :: At(f.leaf, p).Good? ==> f.leaf[p].value < bound)
    && forall p :: At(f.cert, p).Good? ==> f.cert[p].value.serial < bound
  }

  lemma ReachedPairsCA(start: Moment, ws: seq<Write>, m: Moment, bound: Key)
    requires Reached(start, ws, m, bound)
    ensures CAPaired(m.files)
  {
  }

  lemma ReachedReplays(start: Moment, ws: seq<Write>, m: Moment, bound: Key)
    requires Reached(start, ws, m, bound)
    ensures Replay(start, ws) == m
  {
  }

  lemma ReachedUndamaged(start: Moment, early: seq<Write>, before: Moment, ws: seq<Write>, after: Moment, bound: Key)
    requires Replay(start, early) == before && early <= ws && Reached(start, ws, after, bound)
    ensures NoNewDamage(before.files, after.files)
  {
    hide Inv, NoNewDamage, Replay, Disciplined;
    WritesDoNoDamage(start, ws, |early|);
    assert ws[..|early|] == early;
  }

  lemma ReachedMinted(start: Moment, ws: seq<Write>, m: Moment, bound: Key)
    requires Reached(start, ws, m, bound)
    ensures Inv(m) && ArtifactsBelow(m.files, bound) && forall k: Key :: k in m.past.minted ==> k < bound
  {
  }

  lemma ReachedGrows(start: Moment, early: seq<Write>, before: Moment, ws: seq<Write>, after: Moment, bound: Key)
    requires Replay(start, early) == before && early <= ws && Reached(start, ws, after, bound)
    ensures Grown(before.past, after.past)
  {
    hide Inv, Grown, Replay, Disciplined;
    MintedGrows(start, ws, |early|);
    assert ws[..|early|] == early;
  }

  // ---- the empty bundle, and why the order matters ----

  const NOTHING := Moment(
    Files(map[], Missing, map[], Missing, Missing, map[], map[], map[], map[], [], [], [], {}, false),
    Past(map[], {}, {}, {}))

  lemma NothingInv()
    ensures Inv(NOTHING)
  {
  }

  ghost predicate Unbroken(f: Files)
  {
    && (forall s :: !KeyAt(f, s).Broken())
    && (forall p :: !At(f.creds, p).Broken() && !At(f.leaf, p).Broken() && !At(f.cert, p).Broken())
    && (forall k: Key :: !At(f.accountJwt, k).Broken())
    && !f.caCert.Broken() && !f.caKey.Broken() && !f.operatorJwt.Broken()
  }

  /** What a history has made of nothing is never broken, wherever it was cut. */
  lemma NothingBroken(ws: seq<Write>)
    ensures Unbroken(Replay(NOTHING, ws).files)
  {
    WritesDoNoDamage(NOTHING, ws, 0);
    EmptyReplay(NOTHING);
    assert ws[..0] == [];
  }

  /** No user key in a seed file is on record under its account. */
  ghost predicate CurrentUnrevoked(f: Files)
  {
    forall p, k: Key :: KeyAt(f, CabinetUser(p)) == Good(k) ==> !Logged(f.retired, AccountOf(p), k)
  }

  function CutRecord(p: CabinetPath, at: int): RetiredRecord
  {
    RetiredRecord(p.id, p.district, AccountOf(p), Some(0), None, Some(at))
  }

  /**
    A rotation cut off between the record and the new key leaves a live key on record. The next run
    issues its credential afresh, and that credential is revoked just if the clock has not moved on.
   */
  lemma CutRotation(p: CabinetPath, first: UserJwt, later: UserJwt, j: AccountJwt, cutAt: int)
    requires first.subject == 0 && later.subject == 0 && j.subject == 1
    requires j.name == AccountOf(p) && j.signingKeys == {2}
    requires RevocationsOf([CutRecord(p, cutAt)], AccountOf(p), later.issuedAt, j.revocations)
    ensures var ws := [PutKey(CabinetUser(p), 0), PutCreds(p, first),
                       PutKey(AccountRoot(AccountOf(p)), 1), PutKey(AccountSK(AccountOf(p)), 2),
                       LogRetired(CutRecord(p, cutAt)),
                       PutCreds(p, later), PutAccountJwt(j)];
            Disciplined(NOTHING, ws) && (CredsRevoked(Replay(NOTHING, ws).files, p) <==> cutAt >= later.issuedAt)
  {
    var r := CutRecord(p, cutAt);
    hide *;
    FirstRun(p, first);
    var m2 := Step(Step(NOTHING, PutKey(CabinetUser(p), 0)), PutCreds(p, first));
    var m4 := Step(Step(m2, PutKey(AccountRoot(AccountOf(p)), 1)), PutKey(AccountSK(AccountOf(p)), 2));
    SecondRun(m4, p, r, later, j, cutAt);
    SevenWrites(NOTHING, PutKey(CabinetUser(p), 0), PutCreds(p, first), PutKey(AccountRoot(AccountOf(p)), 1),
                PutKey(AccountSK(AccountOf(p)), 2), LogRetired(r), PutCreds(p, later), PutAccountJwt(j));
  }

  lemma FirstRun(p: CabinetPath, first: UserJwt)
    requires first.subject == 0
    ensures var m1 := Step(NOTHING, PutKey(CabinetUser(p), 0));
            var m2 := Step(m1, PutCreds(p, first));
            var m3 := Step(m2, PutKey(AccountRoot(AccountOf(p)), 1));
            var m4 := Step(m3, PutKey(AccountSK(AccountOf(p)), 2));
            && Guard(NOTHING, PutKey(CabinetUser(p), 0)) && Guard(m1, PutCreds(p, first))
            && Guard(m2, PutKey(AccountRoot(AccountOf(p)), 1)) && Guard(m3, PutKey(AccountSK(AccountOf(p)), 2))
            && KeyAt(m4.files, CabinetUser(p)) == Good(0) && KeyAt(m4.files, AccountRoot(AccountOf(p))) == Good(1)
            && KeyAt(m4.files, AccountSK(AccountOf(p))) == Good(2) && 0 in m4.past.minted && m4.files.retired == []
  {
    hide AccountOf;
  }

  lemma SecondRun(m: Moment, p: CabinetPath, r: RetiredRecord, later: UserJwt, j: AccountJwt, cutAt: int)
    requires KeyAt(m.files, CabinetUser(p)) == Good(0) && KeyAt(m.files, AccountRoot(AccountOf(p))) == Good(1)
    requires KeyAt(m.files, AccountSK(AccountOf(p))) == Good(2) && 0 in m.past.minted
    requires r == CutRecord(p, cutAt) && m.files.retired == []
    requires later.subject == 0 && j.subject == 1 && j.name == AccountOf(p) && j.signingKeys == {2}
    requires RevocationsOf([r], AccountOf(p), later.issuedAt, j.revocations)
    ensures var m5 := Step(m, LogRetired(r));
            var m6 := Step(m5, PutCreds(p, later));
            && Guard(m, LogRetired(r)) && Guard(m5, PutCreds(p, later)) && Guard(m6, PutAccountJwt(j))
            && (CredsRevoked(Step(m6, PutAccountJwt(j)).files, p) <==> cutAt >= later.issuedAt)
  {
    hide AccountOf, RevocationsOf;
    assert [] + [r] == [r];
    assert RevocationsOf(Step(Step(m, LogRetired(r)), PutCreds(p, later)).files.retired, j.name, later.issuedAt,
                         j.revocations);
    OneRecord(r, AccountOf(p), later.issuedAt, j.revocations, cutAt);
  }

  lemma OneRecord(r: RetiredRecord, account: string, now: int, m: map<Key, int>, at: int)
    requires r.account == account && r.oldUserPub == Some(0) && r.rotatedAt == Some(at)
    requires RevocationsOf([r], account, now, m)
    ensures 0 in m && m[0] == at
  {
    assert r in [r] && Logged([r], account, 0);
    assert r in RecordsOf([r], account, 0);
  }

  lemma SevenWrites(m: Moment, w1: Write, w2: Write, w3: Write, w4: Write, w5: Write, w6: Write, w7: Write)
    ensures Replay(m, [w1, w2, w3, w4, w5, w6, w7]) ==
              Step(Step(Step(Step(Step(Step(Step(m, w1), w2), w3), w4), w5), w6), w7)
    ensures Disciplined(m, [w1, w2, w3, w4, w5, w6, w7]) <==>
      && Guard(m, w1) && Guard(Step(m, w1), w2) && Guard(Step(Step(m, w1), w2), w3)
      && Guard(Step(Step(Step(m, w1), w2), w3), w4) && Guard(Step(Step(Step(Step(m, w1), w2), w3), w4), w5)
      && Guard(Step(Step(Step(Step(Step(m, w1), w2), w3), w4), w5), w6)
      && Guard(Step(Step(Step(Step(Step(Step(m, w1), w2), w3), w4), w5), w6), w7)
  {
    hide Guard, Step;
    EmptyReplay(m);
    hide Replay, Disciplined;
    OneByOne(w1, w2, w3, w4, w5, w6, w7);
    ReplayNext(m, [], w1);
    ReplayNext(m, [w1], w2);
    ReplayNext(m, [w1, w2], w3);
    ReplayNext(m, [w1, w2, w3], w4);
    ReplayNext(m, [w1, w2, w3, w4], w5);
    ReplayNext(m, [w1, w2, w3, w4, w5], w6);
    ReplayNext(m, [w1, w2, w3, w4, w5, w6], w7);
  }

  lemma EmptyReplay(m: Moment)
    ensures Replay(m, []) == m && Disciplined(m, [])
  {
  }

  lemma OneByOne(w1: Write, w2: Write, w3: Write, w4: Write, w5: Write, w6: Write, w7: Write)
    ensures [] + [w1] == [w1] && [w1] + [w2] == [w1, w2] && [w1, w2] + [w3] == [w1, w2, w3]
    ensures [w1, w2, w3] + [w4] == [w1, w2, w3, w4] && [w1, w2, w3, w4] + [w5] == [w1, w2, w3, w4, w5]
    ensures [w1, w2, w3, w4, w5] + [w6] == [w1, w2, w3, w4, w5, w6]
    ensures [w1, w2, w3, w4, w5, w6] + [w7] == [w1, w2, w3, w4, w5, w6, w7]
  {
  }

  /**
    A run over a model without accounts, cut between the CA's certificate and its key, leaves half a
    CA, which later runs refuse.
   */
  lemma CutCA(dot: string)
    ensures var ws := [PutKey(OperatorRoot, 0), PutKey(OperatorSK, 1),
                       PutOperatorJwt(OperatorJwt(0, OperatorName(dot), {1}, 0)), PutCaCert(2)];
            var f := Replay(NOTHING, ws).files;
            Disciplined(NOTHING, ws) && f.caCert == Good(2) && f.caKey == Missing
  {
    var j := OperatorJwt(0, OperatorName(dot), {1}, 0);
    var w1, w2, w3, w4 := PutKey(OperatorRoot, 0), PutKey(OperatorSK, 1), PutOperatorJwt(j), PutCaCert(2);
    OperatorWrites(j);
    EmptyReplay(NOTHING);
    hide Guard, Replay, Disciplined, Step, NOTHING;
    ReplayNext(NOTHING, [], w1);
    ReplayNext(NOTHING, [w1], w2);
    ReplayNext(NOTHING, [w1, w2], w3);
    ReplayNext(NOTHING, [w1, w2, w3], w4);
    assert [] + [w1] == [w1] && [w1] + [w2] == [w1, w2] && [w1, w2] + [w3] == [w1, w2, w3];
    assert [w1, w2, w3] + [w4] == [w1, w2, w3, w4];
  }

  lemma OperatorWrites(j: OperatorJwt)
    requires j.signingKeys == {1}
    ensures var m1 := Step(NOTHING, PutKey(OperatorRoot, 0));
            var m2 := Step(m1, PutKey(OperatorSK, 1));
            var m3 := Step(m2, PutOperatorJwt(j));
            && Guard(NOTHING, PutKey(OperatorRoot, 0)) && Guard(m1, PutKey(OperatorSK, 1))
            && Guard(m2, PutOperatorJwt(j)) && Guard(m3, PutCaCert(2))
            && Step(m3, PutCaCert(2)).files.caCert == Good(2) && Step(m3, PutCaCert(2)).files.caKey == Missing
  {
    var m2 := Step(Step(NOTHING, PutKey(OperatorRoot, 0)), PutKey(OperatorSK, 1));
    assert KeyAt(m2.files, OperatorSK) == Good(1);
  }

  // ---- what is revoked stays revoked ----

  /** The account's JWT revokes what was issued to k up to `at`. */
  ghost predicate Revokes(f: Files, account: string, k: Key, at: int)
  {
    var root := KeyAt(f, AccountRoot(account));
    && root.Good? && At(f.accountJwt, root.value).Good?
    && var m := f.accountJwt[root.value].value.revocations; k in m && m[k] == at
  }

  /** The log has a record about the key whose time does not parse. */
  ghost predicate Untimed(f: Files, account: string, k: Key)
  {
    exists r :: r in RecordsOf(f.retired, account, k) && r.rotatedAt.None?
  }

  /** Every revocation in a JWT rests on the log. */
  ghost predicate Backed(f: Files)
  {
    forall a, k: Key, at :: Revokes(f, a, k, at) ==>
      exists r :: r in RecordsOf(f.retired, a, k) && (r.rotatedAt.Some? ==> r.rotatedAt.value >= at)
  }

  /** What f revokes g revokes, as of a time no earlier unless a time on record does not parse. */
  ghost predicate StillRevokes(f: Files, g: Files)
  {
    && (forall a, k: Key, at :: Revokes(f, a, k, at) ==>
          exists later: int :: Revokes(g, a, k, later) && (later >= at || Untimed(f, a, k)))
    && forall a, k: Key :: Untimed(g, a, k) ==> Untimed(f, a, k)
  }

  lemma StillRevokesTrans(f: Files, g: Files, h: Files)
    requires StillRevokes(f, g) && StillRevokes(g, h)
    ensures StillRevokes(f, h)
  {
    hide Revokes, Untimed;
    forall a, k: Key, at | Revokes(f, a, k, at)
      ensures exists later: int :: Revokes(h, a, k, later) && (later >= at || Untimed(f, a, k))
    {
      var mid: int :| Revokes(g, a, k, mid) && (mid >= at || Untimed(f, a, k));
      var later: int :| Revokes(h, a, k, later) && (later >= mid || Untimed(g, a, k));
    }
  }

  lemma StepRevokes(m: Moment, w: Write)
    requires Owned(m) && Backed(m.files) && Guard(m, w)
    ensures Backed(Step(m, w).files) && StillRevokes(m.files, Step(m, w).files)
  {
    if w.PutAccountJwt? {
      StepRevokesJwt(m, w.account);
    } else {
      var f, g := m.files, Step(m, w).files;
      forall a, k: Key, at ensures Revokes(g, a, k, at) <==> Revokes(f, a, k, at) { SameRevocations(m, w, a, k, at); }
      hide Revokes;
      StepRecords(m, w);
      hide Owned, Guard, RecordsOf, Step;
    }
  }

  lemma StepRecords(m: Moment, w: Write)
    requires Guard(m, w)
    ensures var f, g := m.files, Step(m, w).files;
            forall a, k: Key, r :: && (r in RecordsOf(f.retired, a, k) ==> r in RecordsOf(g.retired, a, k))
                                   && (r in RecordsOf(g.retired, a, k) && r.rotatedAt.None? ==>
                                       r in RecordsOf(f.retired, a, k))
  {
    var f, g := m.files, Step(m, w).files;
    assert g.retired == if w.LogRetired? then f.retired + [w.record] else f.retired;
  }

  lemma SameRevocations(m: Moment, w: Write, a: string, k: Key, at: int)
    requires Owned(m) && Guard(m, w) && !w.PutAccountJwt?
    ensures Revokes(Step(m, w).files, a, k, at) <==> Revokes(m.files, a, k, at)
  {
    var f, g := m.files, Step(m, w).files;
    assert g.accountJwt == f.accountJwt;
    if w.PutKey? && w.slot == AccountRoot(a) {
      assert w.key !in f.accountJwt;
    } else {
      assert KeyAt(g, AccountRoot(a)) == KeyAt(f, AccountRoot(a));
    }
  }

  lemma JwtRevokes(m: Moment, j: AccountJwt, a: string, k: Key, at: int)
    requires Owned(m) && KeyAt(m.files, AccountRoot(j.name)) == Good(j.subject)
    ensures Revokes(Apply(m.files, PutAccountJwt(j)), a, k, at) <==>
              if a == j.name then k in j.revocations && j.revocations[k] == at else Revokes(m.files, a, k, at)
  {
    if KeyAt(m.files, AccountRoot(a)) == Good(j.subject) { assert a == j.name; }
  }

  lemma BackedIsCovered(log: seq<RetiredRecord>, a: string, now: int, m: map<Key, int>, k: Key,
                        r: RetiredRecord, at: int)
    requires RevocationsOf(log, a, now, m) && r in RecordsOf(log, a, k)
    requires r.rotatedAt.Some? ==> r.rotatedAt.value >= at
    ensures k in m && (m[k] >= at || r.rotatedAt.None?)
  {
    assert r in log && Names(r, a, k);
    assert Logged(log, a, k) && k in m;
    hide RecordsOf, Logged;
    assert TimeOf(r, now) <= m[k];
  }

  lemma StepRevokesJwt(m: Moment, j: AccountJwt)
    requires Owned(m) && Backed(m.files) && Guard(m, PutAccountJwt(j))
    ensures Backed(Apply(m.files, PutAccountJwt(j))) && StillRevokes(m.files, Apply(m.files, PutAccountJwt(j)))
  {
    var f, g := m.files, Apply(m.files, PutAccountJwt(j));
    var now: int :| RevocationsOf(f.retired, j.name, now, j.revocations);
    forall a, k: Key, at
      ensures Revokes(g, a, k, at) <==>
                if a == j.name then k in j.revocations && j.revocations[k] == at else Revokes(f, a, k, at)
    {
      JwtRevokes(m, j, a, k, at);
    }
    hide Owned, Guard, Revokes, Logged, Apply;
    assert g.retired == f.retired;
    forall a, k: Key, at | Revokes(g, a, k, at)
      ensures exists r :: r in RecordsOf(g.retired, a, k) && (r.rotatedAt.Some? ==> r.rotatedAt.value >= at)
    {
      if a == j.name { var r :| r in RecordsOf(f.retired, a, k) && j.revocations[k] == TimeOf(r, now); }
    }
    forall a, k: Key, at | Revokes(f, a, k, at)
      ensures exists later: int :: Revokes(g, a, k, later) && (later >= at || Untimed(f, a, k))
    {
      if a == j.name {
        var r :| r in RecordsOf(f.retired, a, k) && (r.rotatedAt.Some? ==> r.rotatedAt.value >= at);
        BackedIsCovered(f.retired, a, now, j.revocations, k, r, at);
        assert Revokes(g, a, k, j.revocations[k]);
      }
    }
    assert forall a, k: Key :: Untimed(g, a, k) ==> Untimed(f, a, k);
    assert StillRevokes(f, g);
    assert Backed(g);
  }

  lemma {:induction false} BackedThroughout(start: Moment, ws: seq<Write>)
    requires Inv(start) && Backed(start.files) && Disciplined(start, ws)
    ensures Owned(Replay(start, ws)) && Backed(Replay(start, ws).files)
  {
    hide Inv, Guard, Backed;
    Safety(start, ws, |ws|);
    assert ws[..|ws|] == ws;
    InvIsOwned(Replay(start, ws));
    if ws != [] {
      var front := ws[..|ws| - 1];
      BackedThroughout(start, front);
      StepRevokes(Replay(start, front), ws[|ws| - 1]);
    }
  }

  /**
    Between any two points of a history, in the middle of a run or not: what an account's JWT revokes
    at the earlier it revokes at the later.
   */
  lemma {:induction false} RevokedAtEveryCut(start: Moment, ws: seq<Write>, early: nat, late: nat)
    requires Inv(start) && Backed(start.files) && Disciplined(start, ws) && early <= late <= |ws|
    ensures StillRevokes(Replay(start, ws[..early]).files, Replay(start, ws[..late]).files)
  {
    hide Inv, Guard, Backed, StillRevokes;
    if early == late {
      RevokesItself(Replay(start, ws[..early]).files);
    } else {
      var front, last := ws[..|ws| - 1], ws[|ws| - 1];
      if late < |ws| {
        RevokedAtEveryCut(start, front, early, late);
        assert front[..early] == ws[..early] && front[..late] == ws[..late];
      } else {
        RevokedAtEveryCut(start, front, early, |front|);
        assert front[..|front|] == front && front[..early] == ws[..early] && ws[..late] == ws;
        BackedThroughout(start, front);
        StepRevokes(Replay(start, front), last);
        StillRevokesTrans(Replay(start, ws[..early]).files, Replay(start, front).files, Replay(start, ws).files);
      }
    }
  }

  lemma InvIsOwned(m: Moment)
    requires Inv(m)
    ensures Owned(m)
  {
  }

  lemma RevokesItself(f: Files)
    ensures StillRevokes(f, f)
  {
  }

  /** From an empty bundle, where every time on record parses: and as of a time no earlier. */
  lemma RevokedForever(ws: seq<Write>, early: nat, late: nat, account: string, k: Key, at: int) returns (later: int)
    requires Disciplined(NOTHING, ws) && early <= late <= |ws|
    requires Revokes(Replay(NOTHING, ws[..early]).files, account, k, at)
    ensures later >= at && Revokes(Replay(NOTHING, ws[..late]).files, account, k, later)
  {
    NothingInv();
    assert Backed(NOTHING.files) && forall a, u: Key :: !Untimed(NOTHING.files, a, u);
    RevokedAtEveryCut(NOTHING, ws, 0, early);
    RevokedAtEveryCut(NOTHING, ws, early, late);
    EmptyReplay(NOTHING);
    assert ws[..0] == [];
    hide Replay, Disciplined, Revokes, Untimed;
    later :| Revokes(Replay(NOTHING, ws[..late]).files, account, k, later)
      && (later >= at || Untimed(Replay(NOTHING, ws[..early]).files, account, k));
  }
}

/**
  internal/issuance: minting the operator, account, cabinet and consumer credentials.

  `Issuer` is the machine that runs IssueWithRotation over one bundle. Every change goes through
  `Commit`, which may refuse because the machine stops: `writesLeft` is how many more writes it
  gets to make. Contracts that hold whatever the outcome hold at every interruption point.
 */
module Issuance {
  import opened Basics
  import opened Naming
  import opened Topology
  import opened Accounts
  import opened Fleet
  import opened Bundle
  import opened IssuanceSpec
  import opened Runs

  class Issuer {
    var files: Files
    var nextKey: Key
    var writesLeft: nat
    ghost var start: Moment
    ghost var trace: seq<Write>
    ghost var past: Past

    ghost function Here(): Moment
      reads this
    {
      Moment(files, past)
    }

    /** The bundle is what a disciplined history from a sound start has made of it. */
    ghost predicate Valid()
      reads this
    {
      Reached(start, trace, Here(), nextKey)
    }

    twostate predicate Continues()
      reads this
    {
      start == old(start) && old(trace) <= trace && old(nextKey) <= nextKey
    }

    /** At most n writes have been made, each at the expense of the machine's life. */
    twostate predicate Spends(n: nat)
      reads this
    {
      Continues() && writesLeft + |trace| == old(writesLeft + |trace|) && |trace| <= old(|trace|) + n
    }

    constructor (writes: nat)
      ensures Valid() && files == NOTHING.files && trace == []
    {
      files, nextKey, writesLeft := NOTHING.files, 0, writes;
      start, trace, past := NOTHING, [], NOTHING.past;
      new;
      NothingInv();
    }

    method Restart(writes: nat)
      requires Valid()
      modifies this`writesLeft
      ensures Valid() && writesLeft == writes
    {
      writesLeft := writes;
    }

    ghost predicate Halted(e: Failure)
      reads this
    {
      e == Stopped && writesLeft == 0
    }

    /** One atomic write, or the end of the machine. */
    method Commit(w: Write) returns (r: Outcome<Failure>)
      requires Valid() && Guard(Here(), w) && (w.PutKey? ==> w.key < nextKey)
      requires (w.PutLeaf? ==> w.leaf < nextKey) && (w.PutCert? ==> w.cert.serial < nextKey)
      modifies this
      ensures Valid() && Spends(1) && nextKey == old(nextKey)
      ensures r.Pass? ==> files == Apply(old(files), w) && past == Note(old(past), w) && trace == old(trace) + [w]
      ensures r.Fail? ==>
                files == old(files) && past == old(past) && trace == old(trace) && r.error == Stopped && writesLeft == 0
    {
      hide Inv, Replay, Disciplined, MayReplace;
      if writesLeft == 0 {
        return Fail(Stopped);
      }
      ReplayNext(start, trace, w);
      StepInv(Here(), w);
      writesLeft := writesLeft - 1;
      files := Apply(files, w);
      past := Note(past, w);
      trace := trace + [w];
      return Pass;
    }

    method Mint() returns (k: Key)
      requires Valid()
      modifies this`nextKey
      ensures Valid() && k == old(nextKey) && nextKey == k + 1 && k !in past.minted
    {
      k := nextKey;
      nextKey := nextKey + 1;
    }

    /** ensureKeypair: reuse the seed if it is there, else (or if forced) mint one. */
    method EnsureKeypair(s: Slot, force: bool) returns (r: Result<Key, Failure>)
      requires Valid()
      requires force ==> MayReplace(files, s)
      modifies this
      ensures Valid() && Spends(1)
      ensures files == old(files).(keys := files.keys) && SameKeysBut(old(files), files, {s})
      ensures Grown(old(past), past)
      ensures !force && old(KeyAt(files, s)) != Missing ==> files == old(files)
      ensures KeyAt(files, s) != old(KeyAt(files, s)) ==> KeyAt(files, s).Good? && KeyAt(files, s).value >= old(nextKey)
      ensures r.Failure? ==> Halted(r.error) || (r.error == BadSeed && !force && KeyAt(files, s).Broken())
      ensures r.Success? ==> KeyAt(files, s) == Good(r.value)
      ensures r.Success? && (force || old(KeyAt(files, s)) == Missing) ==> r.value >= old(nextKey)
    {
      hide Inv, Replay, Disciplined;
      if !force {
        match KeyAt(files, s) {
          case Good(k) => return Success(k);
          case Unreadable => return Failure(BadSeed);
          case Malformed => return Failure(BadSeed);
          case Missing => MissingMayReplace(Here(), s);
        }
      }
      var k := Mint();
      var ok := Commit(PutKey(s, k));
      if ok.Fail? {
        return Failure(ok.error);
      }
      return Success(k);
    }

    // ---- operator ----

    method CaptureRetiredOperatorSK(now: int) returns (r: Outcome<Failure>)
      requires Valid()
      modifies this
      ensures Valid() && Spends(old(OperatorDeclared(files))) && nextKey == old(nextKey)
      ensures files == old(files).(retiredOperatorSK := files.retiredOperatorSK)
      ensures r.Pass? ==> MayReplace(files, OperatorSK) && !files.operatorJwt.Unreadable?
      ensures r.Pass? && files.operatorJwt.Good? ==>
                OperatorSKsLogged(old(files.retiredOperatorSK), files.retiredOperatorSK,
                                  files.operatorJwt.value.signingKeys, now)
      ensures r.Fail? ==> Halted(r.error) || (r.error == UnreadableJwt && files.operatorJwt.Unreadable?)
    {
      hide Reached, OperatorSKsLogged, OperatorLogged;
      if files.operatorJwt.Unreadable? {
        return Fail(UnreadableJwt);
      }
      if !files.operatorJwt.Good? {
        return Pass;
      }
      ghost var f0 := files;
      :- LogOperatorSKs(files.operatorJwt.value.signingKeys, now);
      OperatorSKsOnRecord(f0, files, files.operatorJwt.value.signingKeys, now);
      return Pass;
    }

    method LogOperatorSKs(keys: set<Key>, now: int) returns (r: Outcome<Failure>)
      requires Valid()
      modifies this
      ensures Valid() && Spends(|keys|) && nextKey == old(nextKey)
      ensures files == old(files).(retiredOperatorSK := files.retiredOperatorSK)
      ensures r.Pass? ==> OperatorSKsLogged(old(files.retiredOperatorSK), files.retiredOperatorSK, keys, now)
      ensures r.Fail? ==> Halted(r.error)
    {
      NoSKLogged(files, "", keys, now);
      hide Reached, MayReplace, OperatorSKsLogged, Guard, Apply, Note;
      ghost var log := files.retiredOperatorSK;
      var todo := keys;
      while todo != {}
        invariant Valid() && Spends(|keys|) && nextKey == old(nextKey)
        invariant todo <= keys && |trace| + |todo| <= old(|trace|) + |keys|
        invariant files == old(files).(retiredOperatorSK := files.retiredOperatorSK)
        invariant OperatorSKsLogged(log, files.retiredOperatorSK, keys - todo, now)
      {
        var k :| k in todo;
        OperatorSKNext(log, files.retiredOperatorSK, keys - todo, now, RetiredSK(k, now));
        OneLess(keys, todo, k);
        SKRecord(Here(), RetiredSK(k, now));
        :- Commit(LogOperatorSK(RetiredSK(k, now)));
        todo := todo - {k};
      }
      assert keys - todo == keys;
      return Pass;
    }

    /** The signing key: if rotated, every key operator.jwt declares is put on record first. */
    method OperatorSigningKey(rotate: bool, now: int) returns (r: Result<Key, Failure>)
      requires Valid()
      modifies this
      ensures Valid() && Spends(1 + old(OperatorDeclared(files)))
      ensures files == old(files).(keys := files.keys, retiredOperatorSK := files.retiredOperatorSK)
      ensures SameKeysBut(old(files), files, {OperatorSK})
      ensures old(KeyAt(files, OperatorSK)) != Missing && !rotate ==>
                KeyAt(files, OperatorSK) == old(KeyAt(files, OperatorSK))
      ensures r.Failure? ==>
                || Halted(r.error)
                || (r.error == BadSeed && !rotate && KeyAt(files, OperatorSK).Broken())
                || (r.error == UnreadableJwt && rotate && files.operatorJwt.Unreadable?)
      ensures r.Success? ==> KeyAt(files, OperatorSK) == Good(r.value)
      ensures r.Success? && rotate ==> r.value >= old(nextKey) && !files.operatorJwt.Unreadable?
    {
      hide Inv, Replay, Disciplined, MayReplace;
      if rotate {
        var captured := CaptureRetiredOperatorSK(now);
        if captured.Fail? {
          return Failure(captured.error);
        }
      }
      r := EnsureKeypair(OperatorSK, rotate);
    }

    method EnsureOperator(dot: string, rotateSK: bool, now: int) returns (r: Result<Key, Failure>)
      requires Valid()
      modifies this
      ensures Valid() && Spends(3 + old(OperatorDeclared(files)))
      ensures files == old(files).(keys := files.keys, operatorJwt := files.operatorJwt,
                                   retiredOperatorSK := files.retiredOperatorSK)
      ensures SameKeysBut(old(files), files, {OperatorRoot, OperatorSK})
      ensures old(KeyAt(files, OperatorRoot)) != Missing ==>
                KeyAt(files, OperatorRoot) == old(KeyAt(files, OperatorRoot))
      ensures old(KeyAt(files, OperatorSK)) != Missing && !rotateSK ==>
                KeyAt(files, OperatorSK) == old(KeyAt(files, OperatorSK))
      ensures r.Failure? ==>
                || Halted(r.error)
                || (r.error == BadSeed && KeyAt(files, OperatorRoot).Broken())
                || (r.error == BadSeed && !rotateSK && KeyAt(files, OperatorSK).Broken())
                || (r.error == UnreadableJwt && rotateSK && old(files.operatorJwt.Unreadable?))
      ensures r.Success? ==> OperatorTrusted(files, dot) && KeyAt(files, OperatorSK) == Good(r.value)
      ensures r.Success? && rotateSK ==> r.value >= old(nextKey) && !old(files.operatorJwt.Unreadable?)
    {
      hide Inv, Replay, Disciplined, MayReplace;
      var root :- EnsureKeypair(OperatorRoot, false);
      var sk :- OperatorSigningKey(rotateSK, now);
      var ok := Commit(PutOperatorJwt(OperatorJwt(root, OperatorName(dot), {sk}, root)));
      if ok.Fail? {
        return Failure(ok.error);
      }
      return Success(sk);
    }

    // ---- accounts ----

    method CaptureRetiredAccountSK(account: string, pub: Key, now: int) returns (r: Outcome<Failure>)
      requires Valid() && KeyAt(files, AccountRoot(account)) == Good(pub)
      modifies this
      ensures Valid() && Spends(old(AccountDeclared(files, account))) && nextKey == old(nextKey)
      ensures files == old(files).(retiredAccountSK := files.retiredAccountSK)
      ensures r.Pass? ==> MayReplace(files, AccountSK(account)) && !JwtUnreadable(files, account)
      ensures r.Pass? && At(files.accountJwt, pub).Good? ==>
                AccountSKsLogged(old(files.retiredAccountSK), files.retiredAccountSK, account,
                                 files.accountJwt[pub].value.signingKeys, now)
      ensures r.Fail? ==> Halted(r.error) || (r.error == UnreadableJwt && JwtUnreadable(files, account))
    {
      hide Reached, AccountSKsLogged, AccountLogged;
      if At(files.accountJwt, pub).Unreadable? {
        return Fail(UnreadableJwt);
      }
      if !At(files.accountJwt, pub).Good? {
        return Pass;
      }
      ghost var f0 := files;
      :- LogAccountSKs(account, files.accountJwt[pub].value.signingKeys, now);
      AccountSKsOnRecord(f0, files, account, files.accountJwt[pub].value.signingKeys, now);
      return Pass;
    }

    method LogAccountSKs(account: string, keys: set<Key>, now: int) returns (r: Outcome<Failure>)
      requires Valid()
      modifies this
      ensures Valid() && Spends(|keys|) && nextKey == old(nextKey)
      ensures files == old(files).(retiredAccountSK := files.retiredAccountSK)
      ensures r.Pass? ==> AccountSKsLogged(old(files.retiredAccountSK), files.retiredAccountSK, account, keys, now)
      ensures r.Fail? ==> Halted(r.error)
    {
      NoSKLogged(files, account, keys, now);
      hide Reached, MayReplace, AccountSKsLogged, Guard, Apply, Note;
      ghost var log := files.retiredAccountSK;
      var todo := keys;
      while todo != {}
        invariant Valid() && Spends(|keys|) && nextKey == old(nextKey)
        invariant todo <= keys && |trace| + |todo| <= old(|trace|) + |keys|
        invariant files == old(files).(retiredAccountSK := files.retiredAccountSK)
        invariant AccountSKsLogged(log, files.retiredAccountSK, account, keys - todo, now)
      {
        var k :| k in todo;
        AccountSKNext(log, files.retiredAccountSK, account, keys - todo, now, RetiredAccountSK(account, k, now));
        OneLess(keys, todo, k);
        AccountSKRecord(Here(), RetiredAccountSK(account, k, now));
        :- Commit(LogAccountSK(RetiredAccountSK(account, k, now)));
        todo := todo - {k};
      }
      assert keys - todo == keys;
      return Pass;
    }

    method EnsureAccount(a: Account, rotating: bool, now: int) returns (r: Result<Acct, Failure>)
      requires Valid()
      modifies this
      ensures Valid() && Spends(2 + old(AccountDeclared(files, a.name)))
      ensures AccountTurn(old(files), files, a, rotating)
      ensures r.Failure? ==>
                || Halted(r.error)
                || (r.error == BadSeed && KeyAt(files, AccountRoot(a.name)).Broken())
                || (r.error == BadSeed && !rotating && KeyAt(files, AccountSK(a.name)).Broken())
                || (r.error == UnreadableJwt && rotating && JwtUnreadable(old(files), a.name))
      ensures r.Success? ==> r.value.def == a && Keyed(files, r.value)
      ensures r.Success? && rotating ==> r.value.sk >= old(nextKey) && !JwtUnreadable(old(files), a.name)
    {
      hide Inv, Replay, Disciplined, MayReplace;
      ghost var m0 := Here();
      var pub :- EnsureKeypair(AccountRoot(a.name), false);
      NewRootDeclaresNothing(m0, files, a.name, pub, old(nextKey));
      if rotating {
        var captured := CaptureRetiredAccountSK(a.name, pub, now);
        if captured.Fail? {
          return Failure(captured.error);
        }
      }
      var sk :- EnsureKeypair(AccountSK(a.name), rotating);
      return Success(Acct(a, pub, sk));
    }

    method EnsureAccounts(model: Model, spec: RotationSpec, now: int) returns (r: Result<seq<Acct>, Failure>)
      requires Valid() && DistinctNames(model.accounts)
      modifies this
      ensures Valid() && Spends(old(AccountWrites(files, model.accounts)))
      ensures files == old(files).(keys := files.keys, retiredAccountSK := files.retiredAccountSK)
      ensures forall s :: KeyAt(files, s) != old(KeyAt(files, s)) ==> AccountSlot(model.accounts, s)
      ensures Kept(old(files), files, spec)
      ensures r.Failure? ==> AccountsCause(old(files), files, writesLeft, model.accounts, spec, r.error)
      ensures r.Success? ==> AllKeyed(files, model.accounts, r.value)
      ensures r.Success? ==> forall a <- r.value :: a.def.name in spec.accountSK ==> a.sk >= old(nextKey)
      ensures r.Success? ==>
                forall a <- model.accounts :: a.name in spec.accountSK ==> !JwtUnreadable(old(files), a.name)
    {
      hide Reached, AccountWrites, JwtUnreadable, Kept, AllKeyed, Keyed, AccountsCause, AccountDeclared;
      var accts: seq<Acct> := [];
      ghost var f0, bound := files, nextKey;
      NoAccountsYet(f0, model.accounts, spec, bound);
      assert AccountWrites(f0, model.accounts[..0]) == 0 by { NoAccountWrites(f0); }
      for i := 0 to |model.accounts|
        invariant Valid() && Spends(AccountWrites(f0, model.accounts[..i]))
        invariant AccountsSoFar(f0, files, model.accounts, i, accts, spec, bound)
      {
        var a := model.accounts[i];
        ghost var f1 := files;
        OwnJwtUntouched(f0, f1, model.accounts, i);
        MoreWrites(f0, model.accounts, i);
        FewerWrites(f0, model.accounts, i + 1);
        var acct := EnsureAccount(a, a.name in spec.accountSK, now);
        TurnKeeps(f0, f1, files, model.accounts, i, accts, spec, bound);
        if acct.Failure? {
          AccountTurnFails(f0, f1, files, model.accounts, i, accts, spec, bound, writesLeft, acct.error);
          return Failure(acct.error);
        }
        NextAccount(f0, f1, files, model.accounts, i, accts, acct.value, spec, bound);
        accts := accts + [acct.value];
      }
      AllAccountsDone(f0, files, model.accounts, accts, spec, bound);
      assert model.accounts[..|model.accounts|] == model.accounts;
      return Success(accts);
    }

    // ---- cabinets ----

    /** captureRetired and the append: the creds file is read before anything replaces its key. */
    method RetireCabinet(p: CabinetPath, now: int) returns (r: Outcome<Failure>)
      requires Valid()
      modifies this
      ensures Valid() && Spends(1) && nextKey == old(nextKey)
      ensures files == old(files).(retired := files.retired) && Gained(old(files), files, past, {p})
      ensures past == old(past) && Stamped(old(files), files, {}, now)
      ensures files.retired == old(files.retired) || exists r :: files.retired == old(files.retired) + [r]
      ensures r.Pass? && Retirable(old(files), p) ==> OnRecord(old(files), files, p, now)
      ensures r.Pass? ==>
                MayReplace(files, CabinetUser(p)) && !At(files.creds, p).Broken() && !At(files.cert, p).Broken()
      ensures r.Fail? ==> Halted(r.error) || (r.error == BadArtifact && BadCabinetArtifact(files, p, true))
    {
      hide Inv, Replay, Disciplined;
      var captured := CaptureRetired(files, p, AccountOf(p), now);
      if captured.Failure? {
        return Fail(captured.error);
      }
      if captured.value.None? {
        return Pass;
      }
      var record := captured.value.value;
      if record.oldUserPub.Some? {
        CredsOwned(Here(), p, record.oldUserPub.value);
      }
      forall k: Key { LoggedAppend(files.retired, record, AccountOf(p), k); }
      :- Commit(LogRetired(record));
      return Pass;
    }

    /** The user key and the creds file that names it. */
    method MintUser(c: Cabinet, district: string, acct: Acct, rotating: bool, now: int) returns (r: Outcome<Failure>)
      requires Valid() && Keyed(files, acct) && acct.def.name == DistrictAccountName(district)
      requires rotating ==> MayReplace(files, CabinetUser(CabinetPath(district, c.id)))
      modifies this
      ensures Valid() && Spends(2)
      ensures files == old(files).(keys := files.keys, creds := files.creds) && Grown(old(past), past)
      ensures var p := CabinetPath(district, c.id);
              && SameKeysBut(old(files), files, {CabinetUser(p)})
              && (forall q :: q != p ==> At(files.creds, q) == At(old(files.creds), q))
              && (old(KeyAt(files, CabinetUser(p))) != Missing && !rotating ==>
                  KeyAt(files, CabinetUser(p)) == old(KeyAt(files, CabinetUser(p))))
              && (r.Fail? ==>
                  Halted(r.error) || (r.error == BadSeed && !rotating && KeyAt(files, CabinetUser(p)).Broken()))
              && (r.Pass? ==>
                    && At(files.creds, p).Good?
                    && UserTrusted(files, CabinetUser(p), AccountOf(p), files.creds[p].value, c.id,
                                   Permissions([c.filter], [], [c.filter]), now)
                    && (rotating || old(KeyAt(files, CabinetUser(p))) == Missing ==>
                        files.creds[p].value.subject >= old(nextKey)))
    {
      hide Inv, Replay, Disciplined, MayReplace;
      var p := CabinetPath(district, c.id);
      var user := EnsureKeypair(CabinetUser(p), rotating);
      if user.Failure? {
        return Fail(user.error);
      }
      var j := UserJwt(user.value, c.id, acct.pub, Permissions([c.filter], [], [c.filter]), now,
                       now + USER_JWT_VALIDITY, acct.sk);
      :- Commit(PutCreds(p, j));
      return Pass;
    }

    /** ensureLeafKey: the file's content is not looked at here. */
    method EnsureLeafKey(p: CabinetPath, force: bool) returns (r: Result<Content<Key>, Failure>)
      requires Valid()
      modifies this
      ensures Valid() && Spends(1)
      ensures files == old(files).(leaf := files.leaf) && past == old(past)
      ensures forall q :: q != p ==> At(files.leaf, q) == At(old(files.leaf), q)
      ensures !force && old(At(files.leaf, p)) != Missing ==> files == old(files)
      ensures r.Success? ==> At(files.leaf, p) == r.value != Missing
      ensures r.Success? && force ==> r.value.Good? && r.value.value >= old(nextKey)
      ensures r.Failure? ==> Halted(r.error)
    {
      hide Reached, MayReplace;
      if !force && !At(files.leaf, p).Missing? {
        return Success(At(files.leaf, p));
      }
      var k := Mint();
      var ok := Commit(PutLeaf(p, k));
      if ok.Fail? {
        return Failure(ok.error);
      }
      return Success(Good(k));
    }

    /** The leaf key and the certificate over it. */
    method MintCert(c: Cabinet, p: CabinetPath, rotating: bool) returns (r: Outcome<Failure>)
      requires Valid() && files.caKey.Good?
      modifies this
      ensures Valid() && Spends(2)
      ensures files == old(files).(leaf := files.leaf, cert := files.cert)
      ensures forall q :: q != p ==>
                At(files.leaf, q) == At(old(files.leaf), q) && At(files.cert, q) == At(old(files.cert), q)
      ensures past == old(past)
      ensures !rotating && old(At(files.leaf, p)) != Missing ==> At(files.leaf, p) == old(At(files.leaf, p))
      ensures r.Fail? ==> Halted(r.error) || (r.error == BadArtifact && !rotating && At(files.leaf, p).Broken())
      ensures r.Pass? ==> At(files.leaf, p).Good? && At(files.cert, p).Good?
      ensures r.Pass? ==>
                var cert := files.cert[p].value;
                cert.commonName == c.id && cert.leaf == files.leaf[p].value && files.caKey == Good(cert.issuer)
      ensures r.Pass? && rotating ==> files.leaf[p].value >= old(nextKey)
      ensures r.Pass? ==> files.cert[p].value.serial >= old(nextKey)
    {
      hide Reached, MayReplace;
      var leaf := EnsureLeafKey(p, rotating);
      if leaf.Failure? {
        return Fail(leaf.error);
      }
      if leaf.value.Broken() {
        return Fail(BadArtifact);
      }
      var serial := Mint();
      :- Commit(PutCert(p, Cert(serial, c.id, leaf.value.value, files.caKey.value)));
      return Pass;
    }

    method MintCabinet(c: Cabinet, district: string, acct: Acct, rotating: bool, now: int) returns (r: Outcome<Failure>)
      requires Valid() && Keyed(files, acct) && acct.def.name == DistrictAccountName(district) && files.caKey.Good?
      requires rotating ==> MayReplace(files, CabinetUser(CabinetPath(district, c.id)))
      modifies this
      ensures Valid() && Spends(4)
      ensures files.retired == old(files.retired) && Grown(old(past), past)
      ensures var p := CabinetPath(district, c.id);
              && CabinetFrame(old(files), files, p)
              && (old(KeyAt(files, CabinetUser(p))) != Missing && !rotating ==>
                  KeyAt(files, CabinetUser(p)) == old(KeyAt(files, CabinetUser(p))))
              && (r.Fail? ==>
                    || Halted(r.error)
                    || (r.error == BadSeed && !rotating && KeyAt(files, CabinetUser(p)).Broken())
                    || (r.error == BadArtifact && BadCabinetArtifact(files, p, rotating)))
              && (!rotating && old(At(files.leaf, p)) != Missing ==> At(files.leaf, p) == old(At(files.leaf, p)))
              && (r.Pass? ==> CabinetTrusted(files, c, district, now))
              && (r.Pass? && (rotating || old(KeyAt(files, CabinetUser(p))) == Missing) ==>
                  files.creds[p].value.subject >= old(nextKey))
              && (r.Pass? && rotating ==> files.leaf[p].value >= old(nextKey))
              && (r.Pass? ==> files.cert[p].value.serial >= old(nextKey))
    {
      hide Reached, MayReplace;
      :- MintUser(c, district, acct, rotating, now);
      :- MintCert(c, CabinetPath(district, c.id), rotating);
      return Pass;
    }

    /** A cabinet's turn in mintCabinets: on rotation the old identifiers go on record before anything is replaced. */
    method RetireAndMint(c: Cabinet, district: string, acct: Acct, rotating: bool, now: int)
      returns (r: Outcome<Failure>)
      requires Valid() && Keyed(files, acct) && acct.def.name == DistrictAccountName(district) && files.caKey.Good?
      modifies this
      ensures Valid() && Spends(5) && Stamped(old(files), files, if rotating then {c.id} else {}, now)
      ensures var p := CabinetPath(district, c.id);
              && CabinetFrame(old(files), files, p)
              && Gained(old(files), files, past, {p})
              && (old(KeyAt(files, CabinetUser(p))) != Missing && !rotating ==>
                  KeyAt(files, CabinetUser(p)) == old(KeyAt(files, CabinetUser(p))))
              && (r.Fail? ==>
                    || Halted(r.error)
                    || (r.error == BadSeed && !rotating && KeyAt(files, CabinetUser(p)).Broken())
                    || (r.error == BadArtifact && BadCabinetArtifact(files, p, rotating)))
              && (!rotating && old(At(files.leaf, p)) != Missing ==> At(files.leaf, p) == old(At(files.leaf, p)))
              && (r.Pass? ==> CabinetTrusted(files, c, district, now))
              && (r.Pass? ==> RecordsExactly(old(files), files, p, rotating))
              && (r.Pass? && rotating ==> Replaced(old(files), files, p, now))
    {
      hide Inv, Replay, Disciplined, MayReplace, RecordsExactly, OnRecord, Stamped, CabinetTrusted;
      var p := CabinetPath(district, c.id);
      ghost var m0 := Here();
      StampedRefl(m0.files, {}, now);
      if rotating {
        var retired := RetireCabinet(p, now);
        if retired.Fail? {
          StampedWide(m0.files, files, p, now);
          return retired;
        }
      }
      ghost var m1, bound := Here(), nextKey;
      ReachedMinted(start, trace, Here(), nextKey);
      var minted := MintCabinet(c, district, acct, rotating, now);
      StampedMint(m0.files, m1.files, files, p, rotating, now);
      if minted.Fail? {
        return minted;
      }
      TrustedFiles(files, c, district, now);
      MintExact(m0, m1, files, p, rotating, bound);
      return Pass;
    }

    /** pki.LoadOrCreateCA: a whole CA is kept, none is minted, and half a CA on disk is an error. */
    method LoadOrCreateCA() returns (r: Outcome<Failure>)
      requires Valid()
      modifies this
      ensures Valid() && Spends(2) && past == old(past)
      ensures files == old(files).(caCert := files.caCert, caKey := files.caKey) && CAKept(old(files), files)
      ensures old(files.caCert.Good? && files.caKey.Good?) ==> r.Pass? && files == old(files)
      ensures r.Fail? ==>
                || Halted(r.error)
                || (r.error == PartialCA && HalfCA(old(files)))
                || (r.error == BadArtifact && (files.caCert.Broken() || files.caKey.Broken()))
      ensures r.Pass? ==> WholeCA(files) && !HalfCA(old(files))
    {
      hide Inv, Replay, Disciplined, MayReplace;
      ReachedPairsCA(start, trace, Here(), nextKey);
      if files.caCert.Unreadable? || files.caKey.Unreadable? {
        return Fail(BadArtifact);
      }
      if !files.caCert.Missing? && !files.caKey.Missing? {
        if files.caCert.Malformed? || files.caKey.Malformed? {
          return Fail(BadArtifact);
        }
        return Pass;
      }
      if !files.caCert.Missing? || !files.caKey.Missing? {
        return Fail(PartialCA);
      }
      var k := Mint();
      :- Commit(PutCaCert(k));
      :- Commit(PutCaKey(k));
      return Pass;
    }

    method MintCabinets(model: Model, inv: Inventory, topo: Topology, spec: RotationSpec, accts: seq<Acct>,
                        now: int) returns (r: Outcome<Failure>)
      requires Valid() && Loaded(inv) && AllKeyed(files, model.accounts, accts)
      modifies this
      ensures Valid() && Spends(2 + 5 * |inv.cabinets|) && Stamped(old(files), files, spec.cabinets, now)
      ensures InventoryMinted(old(files), files, past, inv, topo)
      ensures Kept(old(files), files, spec)
      ensures r.Pass? ==> InventoryDone(old(files), files, inv, topo, spec, now) && InventoryOk(model, inv, topo, spec)
      ensures r.Pass? ==> WholeCA(files) && !HalfCA(old(files))
      ensures r.Pass? && CurrentUnrevoked(old(files)) ==> CurrentUnrevoked(files)
      ensures r.Fail? ==> CabinetCause(old(files), files, writesLeft, model, inv, topo, spec, r.error)
    {
      hide Reached, MayReplace, CurrentUnrevoked, FirstOk, InventoryDone, Minted, AllKeyed, FlatPartitions;
      NothingMinted(files, past, inv, topo);
      if inv.dot != model.dot {
        return Fail(DotMismatch);
      }
      if exists id <- spec.cabinets :: !InInventory(inv, id) {
        return Fail(CabinetNotInInventory);
      }
      var idx := PartitionIndex(topo);
      if idx.None? {
        return Fail(DuplicatePartition);
      }
      r := MintUnderCA(model, inv, topo, idx.value, spec, accts, now);
    }

    method MintUnderCA(model: Model, inv: Inventory, topo: Topology, idx: map<string, string>, spec: RotationSpec,
                       accts: seq<Acct>, now: int)
      returns (r: Outcome<Failure>)
      requires Valid() && Loaded(inv) && AllKeyed(files, model.accounts, accts)
      requires IndexOf(topo, idx)
      modifies this
      ensures Valid() && Spends(2 + 5 * |inv.cabinets|) && Stamped(old(files), files, spec.cabinets, now)
      ensures InventoryMinted(old(files), files, past, inv, topo)
      ensures Kept(old(files), files, spec)
      ensures r.Pass? ==> InventoryDone(old(files), files, inv, topo, spec, now)
      ensures r.Pass? ==> FirstOk(model, inv, topo, |inv.cabinets|)
      ensures r.Pass? ==> WholeCA(files) && !HalfCA(old(files))
      ensures r.Pass? && CurrentUnrevoked(old(files)) ==> CurrentUnrevoked(files)
      ensures r.Fail? ==> CabinetCause(old(files), files, writesLeft, model, inv, topo, spec, r.error)
    {
      hide Reached, MayReplace, Kept, InventoryDone, CurrentUnrevoked, InventoryMinted, FirstOk, AllKeyed, Minted,
        CabinetCause;
      ghost var f0 := files;
      var ca := LoadOrCreateCA();
      CAOnly(f0, Here(), inv, topo, spec, model.accounts, accts);
      if ca.Fail? {
        CACause(f0, files, writesLeft, model, inv, topo, spec, ca.error);
        return ca;
      }
      ghost var f1 := files;
      r := MintAll(model, inv, topo, idx, spec, accts, now);
      KeptCA(f1, files, spec);
      CACauseMoves(f0, f1, files, writesLeft, model, inv, topo, spec, r);
      CAChangesNoKey(f0, f1, Here(), inv, topo, spec, now);
    }

    method MintAll(model: Model, inv: Inventory, topo: Topology, idx: map<string, string>, spec: RotationSpec,
                   accts: seq<Acct>, now: int)
      returns (r: Outcome<Failure>)
      requires Valid() && Loaded(inv) && AllKeyed(files, model.accounts, accts) && files.caKey.Good?
      requires IndexOf(topo, idx)
      modifies this
      ensures Valid() && Spends(5 * |inv.cabinets|) && Stamped(old(files), files, spec.cabinets, now)
      ensures InventoryMinted(old(files), files, past, inv, topo)
      ensures Kept(old(files), files, spec)
      ensures r.Pass? ==> InventoryDone(old(files), files, inv, topo, spec, now)
      ensures r.Pass? ==> FirstOk(model, inv, topo, |inv.cabinets|)
      ensures r.Fail? ==> CabinetCause(old(files), files, writesLeft, model, inv, topo, spec, r.error)
      ensures r.Pass? && CurrentUnrevoked(old(files)) ==> CurrentUnrevoked(files)
    {
      hide Reached, Minted, PrefixDone, Kept, FirstOk, AllKeyed, CurrentUnrevoked, InventoryDone, CabinetCause,
        InventoryMinted, Loaded, IndexOf, PathsOf, Inv;
      ghost var f0 := files;
      ghost var ds: seq<string> := [];
      assert Stamped(f0, files, spec.cabinets, now);
      NoneMinted(f0, past, model, inv, topo, spec, now);
      for i := 0 to |inv.cabinets|
        invariant Valid() && Spends(5 * i) && |ds| == i
        invariant Stamped(f0, files, spec.cabinets, now)
        invariant Minted(f0, files, past, PathsOf(inv.cabinets, ds))
        invariant PrefixDone(f0, files, topo, inv.cabinets, ds, spec, now)
        invariant Kept(f0, files, spec)
        invariant FirstOk(model, inv, topo, i)
      {
        var c := inv.cabinets[i];
        ghost var f1 := files;
        var ok := MintNext(model, inv, topo, idx, spec, accts, c, now, f0, ds);
        StampedTrans(f0, f1, files, spec.cabinets, now);
        if ok.Failure? {
          return Fail(ok.error);
        }
        ds := ds + [ok.value];
      }
      ReachedMinted(start, trace, Here(), nextKey);
      AllDone(f0, Here(), inv, topo, ds, spec, now);
      SomeMinted(f0, Here(), inv, topo, ds, spec, now);
      return Pass;
    }

    method MintNext(model: Model, inv: Inventory, topo: Topology, idx: map<string, string>, spec: RotationSpec,
                    accts: seq<Acct>, c: Cabinet, now: int, ghost f0: Files, ghost ds: seq<string>)
      returns (r: Result<string, Failure>)
      requires Valid() && Loaded(inv) && AllKeyed(f0, model.accounts, accts) && f0.caKey.Good?
      requires IndexOf(topo, idx)
      requires |ds| < |inv.cabinets| && c == inv.cabinets[|ds|]
      requires Minted(f0, files, past, PathsOf(inv.cabinets, ds))
      requires PrefixDone(f0, files, topo, inv.cabinets, ds, spec, now)
      requires Kept(f0, files, spec) && FirstOk(model, inv, topo, |ds|)
      modifies this
      ensures Valid() && Spends(5) && Stamped(old(files), files, spec.cabinets, now) && Kept(f0, files, spec)
      ensures InventoryMinted(f0, files, past, inv, topo)
      ensures r.Failure? ==> CabinetCause(f0, files, writesLeft, model, inv, topo, spec, r.error)
      ensures r.Success? ==> FirstOk(model, inv, topo, |ds| + 1)
      ensures r.Success? ==> Minted(f0, files, past, PathsOf(inv.cabinets, ds + [r.value]))
      ensures r.Success? ==> PrefixDone(f0, files, topo, inv.cabinets, ds + [r.value], spec, now)
    {
      hide Inv, Replay, Disciplined, MayReplace, CabinetTrusted, RecordsExactly, CabinetCause, CabinetOk, CheckCabinet,
        InventoryMinted, BadCabinetArtifact, Replaced, Stamped;
      StampedRefl(files, spec.cabinets, now);
      SomeMinted(f0, Here(), inv, topo, ds, spec, now);
      assert forall p :: p in idx ==> Owns(topo, idx[p], p);
      var checked := CheckCabinet(model.dot, topo, idx, model.accounts, c);
      CheckIsOk(model.dot, topo, idx, model.accounts, c);
      if checked.Failure? {
        CheckCause(f0, files, writesLeft, model, inv, topo, idx, spec, c);
        return checked;
      }
      var d := checked.value;
      FindAcctAgrees(model.accounts, accts, DistrictAccountName(d));
      var acct := FindAcct(accts, DistrictAccountName(d)).value;
      assert Keyed(files, acct);
      ghost var before, written := Here(), trace;
      var p := CabinetPath(d, c.id);
      var ok := RetireAndMint(c, d, acct, c.id in spec.cabinets, now);
      ReachedGrows(start, written, before, trace, Here(), nextKey);
      StampedTurn(before.files, files, p, spec.cabinets, now);
      hide Minted, CabinetFrame, Gained;
      KeptStep(f0, before.files, files, spec, p);
      OneMoreMinted(f0, before, Here(), inv, topo, ds, c, d, spec, now);
      if ok.Fail? {
        MintCause(f0, files, writesLeft, model, inv, topo, spec, c, d, ok.error);
        return Failure(ok.error);
      }
      PrefixStep(f0, before, Here(), topo, inv, ds, d, spec, now);
      return Success(d);
    }

    // ---- DMZ consumers ----

    method MintConsumer(c: Consumer, dmz: Acct, now: int) returns (r: Outcome<Failure>)
      requires Valid() && Keyed(files, dmz) && dmz.def.name == DMZ_ACCOUNT
      modifies this
      ensures Valid() && Spends(2)
      ensures files == old(files).(keys := files.keys, consumerCreds := files.consumerCreds)
      ensures SameKeysBut(old(files), files, {ConsumerUser(c.name)})
      ensures old(KeyAt(files, ConsumerUser(c.name))) != Missing ==> files.keys == old(files.keys)
      ensures forall n :: n != c.name ==> At(files.consumerCreds, n) == old(At(files.consumerCreds, n))
      ensures r.Pass? ==> ConsumerTrusted(files, c, now) && c.pubDeny != []
      ensures r.Fail? ==>
                || Halted(r.error)
                || (r.error == NoPublishDeny && c.pubDeny == [])
                || (r.error == BadSeed && KeyAt(files, ConsumerUser(c.name)).Broken())
    {
      hide Inv, Replay, Disciplined, MayReplace;
      if c.pubDeny == [] {
        return Fail(NoPublishDeny);
      }
      var user := EnsureKeypair(ConsumerUser(c.name), false);
      if user.Failure? {
        return Fail(user.error);
      }
      var j := UserJwt(user.value, c.name, dmz.pub, Permissions([], c.pubDeny, c.subAllow), now,
                       now + USER_JWT_VALIDITY, dmz.sk);
      :- Commit(PutConsumerCreds(c.name, j));
      return Pass;
    }

    method MintDMZConsumers(model: Model, accts: seq<Acct>, now: int) returns (r: Outcome<Failure>)
      requires Valid() && AllKeyed(files, model.accounts, accts)
      modifies this
      ensures Valid() && Spends(2 * |DmzUsers(model)|)
      ensures ConsumersMinted(old(files), files, model)
      ensures r.Pass? ==> ConsumersTrusted(files, model, now) && !UnsafeConsumers(model) && !UndeniedConsumers(model)
      ensures r.Fail? ==> ConsumerCause(files, writesLeft, model, r.error)
    {
      hide Reached, MayReplace, AggregateOf, ConsumerTrusted, ConsumersMinted, ConsumerCause, HasUser, Denies,
        UnsafeConsumers, UndeniedConsumers, SafeFileName;
      var dmz := FindAcct(accts, DMZ_ACCOUNT);
      FindAcctAgrees(model.accounts, accts, DMZ_ACCOUNT);
      if dmz.None? {
        NoConsumersYet(files, model);
        NoDmzNoConsumers(files, model, now);
        NoDmzAllFit(model);
        return Pass;
      }
      var consumers := AggregateDMZConsumers(model);
      ghost var f0 := files;
      NoConsumersYet(f0, model);
      ConsumersAreFew(model, consumers);
      for i := 0 to |consumers|
        invariant Valid() && Spends(2 * i) && Keyed(files, dmz.value)
        invariant ConsumersMinted(f0, files, model)
        invariant forall k :: 0 <= k < i ==> ConsumerTrusted(files, consumers[k], now)
        invariant forall k :: 0 <= k < i ==> SafeFileName(consumers[k].name) && consumers[k].pubDeny != []
      {
        var c := consumers[i];
        ConsumerFails(model, consumers, i);
        if !SafeFileName(c.name) {
          return Fail(UnsafeConsumer);
        }
        ghost var f1 := files;
        var ok := MintConsumer(c, dmz.value, now);
        ConsumerStep(f0, f1, files, model, consumers, i, now);
        if ok.Fail? {
          return ok;
        }
      }
      AllConsumersFit(model, consumers);
      return Pass;
    }

    // ---- resolver bundle ----

    /** Every record of the account in turn; of two times for one key the later stands. */
    method FoldRevocations(log: seq<RetiredRecord>, account: string, now: int) returns (revoked: map<Key, int>)
      ensures RevocationsOf(log, account, now, revoked)
    {
      revoked := map[];
      assert RevocationsOf(log[..0], account, now, revoked);
      hide RevocationsOf;
      for i := 0 to |log|
        invariant RevocationsOf(log[..i], account, now, revoked)
      {
        var r := log[i];
        RevocationsStep(log[..i], account, now, revoked, r);
        assert log[..i + 1] == log[..i] + [r];
        if r.account == account && r.oldUserPub.Some? {
          var k := r.oldUserPub.value;
          if k !in revoked || revoked[k] <= TimeOf(r, now) {
            revoked := revoked[k := TimeOf(r, now)];
          }
        }
      }
      assert log[..|log|] == log;
    }

    method WriteAccountJwt(acct: Acct, accts: seq<Acct>, operatorSK: Key, now: int) returns (r: Outcome<Failure>)
      requires Valid() && acct in accts && (forall a :: a in accts ==> Keyed(files, a))
      requires KeyAt(files, OperatorSK) == Good(operatorSK)
      modifies this
      ensures Valid() && Spends(1)
      ensures files == old(files) || WroteJwtOf(old(files), files, acct.pub)
      ensures r.Pass? ==> AccountTrusted(files, acct.def, now) && ResolveImports(accts, acct.def.imports).Some?
      ensures r.Fail? ==> Halted(r.error) || (r.error == UnknownImport && ResolveImports(accts, acct.def.imports).None?)
    {
      hide Inv, Replay, Disciplined, MayReplace, AccountTrusted, RevocationsOf;
      // the log as it stands now, after the cabinets were minted
      var revoked := FoldRevocations(files.retired, acct.def.name, now);
      var imports := ResolveImports(accts, acct.def.imports);
      if imports.None? {
        return Fail(UnknownImport);
      }
      var j := AccountJwt(acct.pub, acct.def.name, {acct.sk}, acct.def.exports, imports.value, acct.def.jetStream,
                          revoked, operatorSK);
      ghost var f0 := files;
      assert Guard(Here(), PutAccountJwt(j)) by {
        assert RevocationsOf(files.retired, j.name, now, revoked);
        assert KeyAt(files, AccountSK(j.name)) == Good(acct.sk) && j.signingKeys == {acct.sk};
      }
      :- Commit(PutAccountJwt(j));
      assert forall s :: KeyAt(files, s) == KeyAt(f0, s);
      ResolveImportsCorrect(files, accts, acct.def.imports);
      WrittenAccount(files, acct, now, j);
      return Pass;
    }

    method WriteNextJwt(model: Model, accts: seq<Acct>, operatorSK: Key, now: int, i: nat) returns (r: Outcome<Failure>)
      requires Valid() && DistinctNames(model.accounts) && AllKeyed(files, model.accounts, accts)
      requires KeyAt(files, OperatorSK) == Good(operatorSK)
      requires i < |accts| && PrefixTrusted(files, accts, i, now)
      modifies this
      ensures Valid() && Spends(1)
      ensures files == old(files).(accountJwt := files.accountJwt)
      ensures r.Pass? ==> PrefixTrusted(files, accts, i + 1, now) && ResolveImports(accts, accts[i].def.imports).Some?
      ensures r.Fail? ==>
                Halted(r.error) || (r.error == UnknownImport && UnresolvedImports(model))
    {
      hide Inv, Replay, Disciplined, MayReplace, AccountTrusted, Keyed, UnresolvedImport, ResolveImports, PrefixTrusted;
      ghost var m := Here();
      r := WriteAccountJwt(accts[i], accts, operatorSK, now);
      if r.Pass? {
        TrustedStep(m, files, model.accounts, accts, i, now);
      } else if r.error == UnknownImport {
        ImportCause(m.files, model.accounts, accts, i);
      }
    }

    method WriteResolverBundle(model: Model, accts: seq<Acct>, operatorSK: Key, now: int) returns (r: Outcome<Failure>)
      requires Valid() && DistinctNames(model.accounts) && AllKeyed(files, model.accounts, accts)
      requires KeyAt(files, OperatorSK) == Good(operatorSK)
      modifies this
      ensures Valid() && Spends(|model.accounts| + 2)
      ensures files ==
                old(files).(accountJwt := files.accountJwt, index := files.index, resolverConf := files.resolverConf)
      ensures r.Pass? ==> forall a :: a in model.accounts ==> AccountTrusted(files, a, now)
      ensures r.Fail? ==>
                Halted(r.error) || (r.error == UnknownImport && UnresolvedImports(model))
      ensures r.Pass? ==> !UnresolvedImports(model)
      ensures r.Pass? ==> files.resolverConf && files.index == set a | a in accts :: (a.def.name, a.pub)
    {
      hide Reached, MayReplace, AccountTrusted, Keyed, UnresolvedImports, AllKeyed, PrefixTrusted, KeyAt,
        ResolveImports;
      ghost var f0 := files;
      NoneTrusted(files, accts, now);
      for i := 0 to |accts|
        invariant Valid() && Spends(i)
        invariant files == f0.(accountJwt := files.accountJwt)
        invariant PrefixTrusted(files, accts, i, now)
        invariant ResolvedSoFar(accts, i)
      {
        SameKeys(f0, files, model.accounts, accts);
        :- WriteNextJwt(model, accts, operatorSK, now, i);
        ResolvedNext(accts, i);
      }
      ghost var f2 := files;
      SameKeys(f0, files, model.accounts, accts);
      var lines := set a | a in accts :: (a.def.name, a.pub);
      :- Commit(PutIndex(lines));
      :- Commit(PutResolverConf);
      AllAccountsTrusted(f2, files, model.accounts, accts, now);
      SameDefs(f0, model.accounts, accts);
      AllImportsResolved(model, accts);
      return Pass;
    }

    // ---- a whole run ----

    /** The keys every later step signs with. */
    method EnsureSigners(model: Model, spec: RotationSpec, now: int) returns (r: Result<(Key, seq<Acct>), Failure>)
      requires Valid() && DistinctNames(model.accounts)
      modifies this
      ensures Valid() && Spends(3 + old(OperatorDeclared(files) + AccountWrites(files, model.accounts)))
      ensures SignersEnsured(old(files), files, model)
      ensures Kept(old(files), files, spec)
      ensures r.Failure? ==> SignerCause(old(files), files, writesLeft, model, spec, r.error)
      ensures r.Success? ==> OperatorTrusted(files, model.dot) && KeyAt(files, OperatorSK) == Good(r.value.0)
      ensures r.Success? ==> AllKeyed(files, model.accounts, r.value.1)
      ensures r.Success? && (forall a :: a in spec.accountSK ==> FindAccount(model.accounts, a).Some?) ==>
                Rotated(old(files), files, spec) && !JwtInTheWay(old(files), spec)
    {
      hide Reached, MayReplace, OperatorTrusted, SignerCause, AccountsCause, JwtUnreadable, Kept, AccountWrites,
        AllKeyed, Rotated, JwtInTheWay;
      ghost var m0, bound := Here(), nextKey;
      ReachedMinted(start, trace, Here(), nextKey);
      var op := EnsureOperator(model.dot, spec.operatorSK, now);
      ghost var f1 := files;
      OperatorKeeps(m0.files, f1, spec);
      if op.Failure? {
        OperatorFails(m0.files, files, writesLeft, model, spec, op.error);
        return Failure(op.error);
      }
      OperatorLeavesAccounts(m0.files, f1, model.accounts, spec);
      var accts := EnsureAccounts(model, spec, now);
      KeptTrans(m0.files, f1, files, spec);
      if accts.Failure? {
        AccountsFail(m0.files, f1, files, writesLeft, model, spec, accts.error);
        return Failure(accts.error);
      }
      OperatorStays(f1, files, model.dot);
      if forall a :: a in spec.accountSK ==> FindAccount(model.accounts, a).Some? {
        SignersRotated(m0, bound, files, model.accounts, accts.value, op.value, spec);
        NoJwtInTheWay(m0.files, model.accounts, spec);
      }
      return Success((op.value, accts.value));
    }

    /**
      One run, from whatever an earlier run left. Whether or not it completes, the history stays
      disciplined (so `Safety` applies to every prefix), the log only grows, by records of this run's
      time, and no key changes that exists and is not named by the rotation. With enough writes it
      completes exactly when the inputs are acceptable and what it has to read is in order; and then
      the trust chain stands, and each credential issued is revoked exactly if its key was on record.
     */
    method IssueWithRotation(model: Model, inv: Option<Inventory>, topo: Topology, spec: RotationSpec, now: int)
      returns (r: Outcome<Failure>)
      requires Valid() && DistinctNames(model.accounts) && (inv.Some? ==> Loaded(inv.value))
      modifies this
      ensures Valid() && Spends(old(RunWrites(files, model, inv)))
      ensures Kept(old(files), files, spec) && InScopeOnly(old(files), files, model, inv, topo)
      ensures Stamped(old(files), files, spec.cabinets, now)
      ensures r.Pass? ==> RunDone(old(files), files, model, inv, topo, spec, now)
      ensures r.Fail? ==> Cause(old(files), files, writesLeft, model, inv, topo, spec, r.error)
      ensures old(writesLeft > RunWrites(files, model, inv)) ==>
                (r.Pass? <==> Runnable(model, inv, topo, spec) && DiskClean(old(files), model, inv, topo, spec))
      ensures r.Pass? && inv.Some? ==> InventoryRevocations(old(files), files, inv.value, topo, spec, now)
      ensures r.Pass? && inv.Some? && ClockAhead(old(files), now) ==> InventoryUnrevoked(files, inv.value, topo)
      ensures r.Pass? && CurrentUnrevoked(old(files)) ==> CurrentUnrevoked(files)
    {
      hide Reached, RunDone, CurrentUnrevoked, Cause, Runnable, DiskClean, Kept, InScopeOnly, InventoryRevocations,
        InventoryUnrevoked, ClockAhead, NoNewDamage;
      ghost var m0, early := Here(), trace;
      ReachedReplays(start, early, m0, nextKey);
      r := IssueChecked(model, inv, topo, spec, now);
      ReachedUndamaged(start, early, m0, trace, Here(), nextKey);
      if r.Pass? {
        CompletionHasGround(m0.files, files, model, inv, topo, spec, now);
        if inv.Some? {
          AllRevokedExactly(m0.files, files, model, inv.value, topo, spec, now);
        }
      } else if old(writesLeft > RunWrites(files, model, inv)) {
        FailureHasGround(m0.files, files, writesLeft, model, inv, topo, spec, r.error);
      }
    }

    /** The checks on the rotation, and the run. */
    method IssueChecked(model: Model, inv: Option<Inventory>, topo: Topology, spec: RotationSpec, now: int)
      returns (r: Outcome<Failure>)
      requires Valid() && DistinctNames(model.accounts) && (inv.Some? ==> Loaded(inv.value))
      modifies this
      ensures Valid() && Spends(old(RunWrites(files, model, inv)))
      ensures Kept(old(files), files, spec) && InScopeOnly(old(files), files, model, inv, topo)
      ensures Stamped(old(files), files, spec.cabinets, now)
      ensures r.Pass? ==> RunDone(old(files), files, model, inv, topo, spec, now)
      ensures r.Fail? ==> Cause(old(files), files, writesLeft, model, inv, topo, spec, r.error)
      ensures r.Pass? && CurrentUnrevoked(old(files)) ==> CurrentUnrevoked(files)
    {
      hide Reached, RunDone, CurrentUnrevoked, InventoryOk, AccountWrites;
      if spec.cabinets != {} && inv.None? {
        return Fail(RotationWithoutInventory);
      }
      if exists a <- spec.accountSK :: FindAccount(model.accounts, a).None? {
        return Fail(AccountNotInModel);
      }
      r := IssueSigned(model, inv, topo, spec, now);
    }

    method IssueSigned(model: Model, inv: Option<Inventory>, topo: Topology, spec: RotationSpec, now: int)
      returns (r: Outcome<Failure>)
      requires Valid() && DistinctNames(model.accounts) && (inv.Some? ==> Loaded(inv.value))
      requires inv.None? ==> spec.cabinets == {}
      requires forall a :: a in spec.accountSK ==> FindAccount(model.accounts, a).Some?
      modifies this
      ensures Valid() && Spends(old(RunWrites(files, model, inv)))
      ensures Kept(old(files), files, spec) && InScopeOnly(old(files), files, model, inv, topo)
      ensures Stamped(old(files), files, spec.cabinets, now)
      ensures r.Pass? ==> RunDone(old(files), files, model, inv, topo, spec, now)
      ensures r.Fail? ==> Cause(old(files), files, writesLeft, model, inv, topo, spec, r.error)
      ensures r.Pass? && CurrentUnrevoked(old(files)) ==> CurrentUnrevoked(files)
    {
      hide Reached, MayReplace, Kept, InScopeOnly, OperatorTrusted, AllKeyed, SignersEnsured, CurrentUnrevoked, Rotated,
        Cause, UserCause, SignerCause, UsersDone, RunDone, JwtInTheWay, HalfCA, AccountWrites, Stamped;
      ghost var f0 := files;
      var signers := EnsureSigners(model, spec, now);
      ghost var f1 := files;
      SignersOnly(f0, f1, model, inv, topo, now);
      if signers.Failure? {
        SignerCauseIsCause(f0, f1, writesLeft, model, inv, topo, spec, signers.error);
        return Fail(signers.error);
      }
      var (sk, accts) := signers.value;
      r := IssueUsers(model, inv, topo, spec, sk, accts, now, f0);
      if r.Fail? {
        UserCauseIsCause(f0, f1, files, writesLeft, model, inv, topo, spec, r.error);
      } else {
        UsersDoneIsRunDone(f0, f1, files, model, inv, topo, spec, now);
      }
    }

    /** The rest of the run, once the signing keys are there. */
    method IssueUsers(model: Model, inv: Option<Inventory>, topo: Topology, spec: RotationSpec, sk: Key,
                      accts: seq<Acct>, now: int, ghost f0: Files)
      returns (r: Outcome<Failure>)
      requires Valid() && DistinctNames(model.accounts) && (inv.Some? ==> Loaded(inv.value))
      requires AllKeyed(files, model.accounts, accts) && KeyAt(files, OperatorSK) == Good(sk)
      requires InScopeOnly(f0, files, model, inv, topo) && Kept(f0, files, spec)
      requires Stamped(f0, files, spec.cabinets, now)
      requires SignersEnsured(f0, files, model) && OperatorTrusted(files, model.dot) && Rotated(f0, files, spec)
      modifies this
      ensures Valid()
      ensures var cabinetWrites := if inv.Some? then 2 + 5 * |inv.value.cabinets| else 0;
              Spends(cabinetWrites + 2 * |DmzUsers(model)| + |model.accounts| + 2)
      ensures Kept(f0, files, spec) && InScopeOnly(f0, files, model, inv, topo)
      ensures Stamped(f0, files, spec.cabinets, now)
      ensures r.Pass? ==> UsersDone(f0, old(files), files, model, inv, topo, spec, now)
      ensures r.Fail? ==> UserCause(old(files), files, writesLeft, model, inv, topo, spec, r.error)
      ensures r.Pass? && CurrentUnrevoked(f0) ==> CurrentUnrevoked(files)
    {
      hide Reached, MayReplace, Kept, InScopeOnly, InventoryDone, InventoryMinted, TrustChain, Rotated, Stamped, HalfCA,
        OperatorTrusted, ConsumersTrusted, ConsumersMinted, AccountTrusted, AllKeyed, SignersEnsured, Later,
        CurrentUnrevoked, CabinetCause, ConsumerCause, InventoryOk, UnsafeConsumers, UndeniedConsumers,
        UnresolvedImports;
      ghost var f1 := files;
      LaterRefl(f1);
      if inv.Some? {
        r := MintCabinets(model, inv.value, topo, spec, accts, now);
        CabinetsOnly(f0, f1, Here(), model, inv.value, topo, spec, accts, now);
        if r.Fail? {
          return;
        }
      }
      ghost var f2 := files;
      r := MintDMZConsumers(model, accts, now);
      ghost var f3 := files;
      ConsumersOnly(f0, f2, f3, model, inv, topo, spec, accts, now);
      if r.Fail? {
        return;
      }
      LaterKeepsSigner(f1, f2, f3);
      r := WriteResolverBundle(model, accts, sk, now);
      ResolverOnly(f0, f3, files, model, inv, topo, spec, now);
      if r.Pass? {
        RunComplete(f0, f1, f2, f3, files, model, inv, topo, spec, now);
      }
    }

    // ---- many runs ----

    method RunJob(j: Job) returns (ghost x: Ran)
      requires Valid() && WellPosed(j)
      modifies this
      ensures Valid() && Continues()
      ensures x.job == j && x.before == old(files) && x.after == files && RunOf(x)
      ensures x.completed && CurrentUnrevoked(old(files)) ==> CurrentUnrevoked(files)
      ensures j.writes > old(RunWrites(files, j.model, j.inv)) ==>
                (x.completed <==>
                    Runnable(j.model, j.inv, j.topo, j.spec) && DiskClean(old(files), j.model, j.inv, j.topo, j.spec))
    {
      hide Reached, RunDone, InScopeOnly, Kept, CurrentUnrevoked, Cause, Stamped, Runnable, DiskClean, RunWrites,
        InventoryRevocations, InventoryUnrevoked, ClockAhead;
      ghost var before := files;
      Restart(j.writes);
      var r := IssueWithRotation(j.model, j.inv, j.topo, j.spec, j.now);
      x := Ran(j, before, files, r.Pass?);
    }

    /**
      Any history: each job is one run on a machine that stops after some number of writes, and the
      next starts from what is on disk. At every point of the history nothing ever shown is forgotten
      and nothing revoked is forgiven, and keys that no job names stay. `NeverRevoked` and
      `RevokedForGood` say what follows for `runs`.
     */
    method RunHistory(jobs: seq<Job>) returns (ghost runs: seq<Ran>)
      requires Valid() && forall j :: j in jobs ==> WellPosed(j)
      modifies this
      ensures Valid() && Continues()
      ensures HistoryOf(old(files), runs, files) && |runs| == |jobs| && forall i :: 0 <= i < |jobs| ==>
                runs[i].job == jobs[i]
      ensures forall cut: nat :: cut <= |trace| ==> NothingForgotten(Replay(start, trace[..cut]))
      ensures Backed(start.files) ==> forall early: nat, late: nat :: early <= late <= |trace| ==>
                StillRevokes(Replay(start, trace[..early]).files, Replay(start, trace[..late]).files)
      ensures KeptThrough(old(files), files, jobs)
    {
      hide NothingForgotten, Backed, StillRevokes;
      runs := RunJobs(jobs);
      forall cut: nat | cut <= |trace| { Safety(start, trace, cut); }
      if Backed(start.files) {
        forall early: nat, late: nat | early <= late <= |trace| { RevokedAtEveryCut(start, trace, early, late); }
      }
    }

    method RunJobs(jobs: seq<Job>) returns (ghost runs: seq<Ran>)
      requires Valid() && forall j :: j in jobs ==> WellPosed(j)
      modifies this
      ensures Valid() && Continues()
      ensures HistoryOf(old(files), runs, files) && |runs| == |jobs| && forall i :: 0 <= i < |jobs| ==>
                runs[i].job == jobs[i]
      ensures KeptThrough(old(files), files, jobs)
    {
      ghost var f0 := files;
      runs := [];
      NoRunsYet(f0);
      hide Reached, KeptThrough, CurrentUnrevoked, HistoryOf, RunOf, Runnable, DiskClean, RunWrites;
      for i := 0 to |jobs|
        invariant Valid() && Continues()
        invariant HistoryOf(f0, runs, files) && |runs| == i && forall k :: 0 <= k < i ==> runs[k].job == jobs[k]
        invariant KeptThrough(f0, files, jobs[..i])
      {
        var j := jobs[i];
        assert WellPosed(j);
        ghost var f1 := files;
        ghost var x := RunJob(j);
        HistoryNext(f0, runs, f1, x);
        KeptOnce(f0, f1, jobs[..i], x);
        runs := runs + [x];
        assert jobs[..i + 1] == jobs[..i] + [j];
      }
      assert jobs[..|jobs|] == jobs;
    }

    /**
      Runs that all complete never put a live key on record, and whatever was on record when they
      began is revoked, as of its time, in the JWTs they leave.
     */
    method RunCompleted(jobs: seq<Job>) returns (r: bool)
      requires Valid() && forall j :: j in jobs ==> WellPosed(j)
      modifies this
      ensures Valid() && Continues() && old(files.retired) <= files.retired
      ensures r && CurrentUnrevoked(old(files)) ==> CurrentUnrevoked(files)
      ensures r && jobs != [] ==>
                var j := jobs[|jobs| - 1];
                && TrustChain(files, j.model, j.inv, j.topo, j.now)
                && RetiredRevoked(old(files.retired), files, j.model, j.now)
    {
      hide Reached, TrustChain, CurrentUnrevoked, RunOf, Runnable, DiskClean, RunWrites, RetiredRevoked;
      for i := 0 to |jobs|
        invariant Valid() && Continues() && old(files.retired) <= files.retired
        invariant CurrentUnrevoked(old(files)) ==> CurrentUnrevoked(files)
        invariant i > 0 ==> var j := jobs[i - 1];
                  && TrustChain(files, j.model, j.inv, j.topo, j.now)
                  && RetiredRevoked(old(files.retired), files, j.model, j.now)
      {
        var j := jobs[i];
        assert WellPosed(j);
        Restart(j.writes);
        var o := IssueWithRotation(j.model, j.inv, j.topo, j.spec, j.now);
        if o.Fail? {
          return false;
        }
        RetiredStaysRevoked(old(files.retired), files, j.model, j.inv, j.topo, j.now);
      }
      return true;
    }

    /**
      Issuing again without a rotation, any number of times, each run at its own time and on a machine
      that stops after its own number of writes, leaves every key as it is, leaf keys and the CA included.
     */
    method Reissue(model: Model, inv: Option<Inventory>, topo: Topology, issuedAt: int, writes: seq<nat>,
                   nows: seq<int>)
      requires Valid() && DistinctNames(model.accounts) && (inv.Some? ==> Loaded(inv.value) && FlatPartitions(topo))
      requires TrustChain(files, model, inv, topo, issuedAt) && |writes| == |nows|
      modifies this
      ensures Valid() && Continues()
      ensures SameKeyFiles(old(files), files)
    {
      hide Reached, TrustChain, RunDone, CurrentUnrevoked, Cause, Runnable, DiskClean, RunWrites,
        InventoryRevocations, InventoryUnrevoked, ClockAhead;
      ghost var f0 := files;
      for i := 0 to |nows|
        invariant Valid() && Continues()
        invariant SameKeyFiles(f0, files)
      {
        ghost var f1 := files;
        Restart(writes[i]);
        var _ := IssueWithRotation(model, inv, topo, RotationSpec({}, false, {}), nows[i]);
        ReissueChangesNothing(f0, f1, files, model, inv, topo, issuedAt);
      }
    }
  }
}

/**
  What the credentials of a completed run let their holders do, by the rules a NATS server goes by:
  the chain of issuers is checked, a deny goes before an allow, and no allow list allows all.
 */
module Credentials {
  import opened Basics
  import opened Text
  import opened Naming
  import opened Sorting
  import opened Topology
  import opened Accounts
  import opened Lanes
  import opened Fleet
  import opened Bundle
  import opened IssuanceSpec
  import opened Runs

  // ---- the server's rules ----

  /** The user's JWT is signed by a key its account's JWT lists, that one by a key the operator's lists. */
  ghost predicate Accepted(f: Files, u: UserJwt)
  {
    && At(f.accountJwt, u.issuerAccount).Good? && f.operatorJwt.Good?
    && var a, op := f.accountJwt[u.issuerAccount].value, f.operatorJwt.value;
       && a.subject == u.issuerAccount && u.issuer in a.signingKeys
       && a.issuer in op.signingKeys && op.issuer == op.subject
  }

  ghost predicate MayPublish(p: Permissions, subject: seq<string>)
  {
    !Permits(p.pubDeny, subject) && (p.pubAllow == [] || Permits(p.pubAllow, subject))
  }

  ghost predicate MaySubscribe(p: Permissions, subject: seq<string>)
  {
    p.subAllow == [] || Permits(p.subAllow, subject)
  }

  const NINETY_DAYS := 7_776_000

  lemma JwtOfAccount(f: Files, model: Model, inv: Option<Inventory>, t: Topology, now: int, a: Account)
    returns (j: AccountJwt)
    requires TrustChain(f, model, inv, t, now) && a in model.accounts
    ensures JwtOf(f, a, now, j) && At(f.accountJwt, j.subject) == Good(j) && OperatorTrusted(f, model.dot)
  {
    hide OperatorTrusted, ConsumersTrusted, CabinetTrusted, JwtOf;
    assert AccountTrusted(f, a, now);
    j :| JwtOf(f, a, now, j) && At(f.accountJwt, j.subject) == Good(j);
  }

  /** What is signed the way a run signs is accepted. */
  lemma TrustedIsAccepted(f: Files, dot: string, a: Account, j: AccountJwt, slot: Slot, u: UserJwt, name: string,
                          perms: Permissions, now: int)
    requires OperatorTrusted(f, dot) && JwtOf(f, a, now, j) && At(f.accountJwt, j.subject) == Good(j)
    requires UserTrusted(f, slot, a.name, u, name, perms, now)
    ensures Accepted(f, u) && f.accountJwt[u.issuerAccount].value.name == a.name
    ensures u.expires - u.issuedAt == NINETY_DAYS
  {
    hide ImportsResolved, RevocationsOf;
  }

  // ---- cabinets ----

  /** One pattern allows just its subjects. */
  lemma OnePattern(filter: string, subject: seq<string>)
    ensures Permits([filter], subject) <==> Matches(Split(filter, '.'), subject)
    ensures !Permits([], subject)
  {
    assert filter in [filter];
  }

  /**
    A cabinet's credential is accepted as one of its district's account, for ninety days, and lets
    the cabinet publish and subscribe just what its filter matches; that is within the district's space.
   */
  lemma CabinetCredential(f: Files, g: Files, model: Model, inv: Inventory, t: Topology, spec: RotationSpec, now: int,
                          c: Cabinet, d: string, subject: seq<string>)
    requires RunDone(f, g, model, Some(inv), t, spec, now) && c in inv.cabinets && Owns(t, d, c.partition)
    requires model.dot == t.dot
    ensures var creds := At(g.creds, CabinetPath(d, c.id));
            && creds.Good? && creds.value.name == c.id && Accepted(g, creds.value)
            && g.accountJwt[creds.value.issuerAccount].value.name == DistrictAccountName(d)
            && creds.value.issuedAt == now && creds.value.expires == now + NINETY_DAYS
            && (MayPublish(creds.value.permissions, subject) <==> Matches(Split(c.filter, '.'), subject))
            && (MaySubscribe(creds.value.permissions, subject) <==> Matches(Split(c.filter, '.'), subject))
            && (Validate(t) && Concrete(subject) && MayPublish(creds.value.permissions, subject) ==>
                InSpace(t, d, subject))
  {
    hide Split, Matches, Validate, JwtOf, OperatorTrusted, UserTrusted, Accepted, InSpace;
    var a := CabinetIsOk(f, g, model, inv, t, spec, now, c, d);
    var j := JwtOfAccount(g, model, Some(inv), t, now, a);
    var u := g.creds[CabinetPath(d, c.id)].value;
    var perms := Permissions([c.filter], [], [c.filter]);
    TrustedFields(g, CabinetUser(CabinetPath(d, c.id)), a.name, u, c.id, perms, now);
    TrustedIsAccepted(g, model.dot, a, j, CabinetUser(CabinetPath(d, c.id)), u, c.id, perms, now);
    OnePattern(c.filter, subject);
    if Validate(t) && Concrete(subject) && Matches(Split(c.filter, '.'), subject) {
      var base := SpaceBase(t, d);
      UnderMatches(c.filter, base, subject);
      assert InSpace(t, d, subject) by { SpaceAgain(t, d, subject); }
    }
  }

  /** Its TLS certificate is over its own leaf key, in its name, by the CA that is there. */
  lemma CabinetCertificate(f: Files, g: Files, model: Model, inv: Inventory, t: Topology, spec: RotationSpec, now: int,
                           c: Cabinet, d: string)
    requires RunDone(f, g, model, Some(inv), t, spec, now) && c in inv.cabinets && Owns(t, d, c.partition)
    ensures var cert := At(g.cert, CabinetPath(d, c.id));
            && cert.Good? && cert.value.commonName == c.id
            && At(g.leaf, CabinetPath(d, c.id)) == Good(cert.value.leaf)
            && g.caCert == Good(cert.value.issuer) && g.caKey == Good(cert.value.issuer)
  {
    hide Rotated, FitModel, JwtInTheWay, UserTrusted, RecordsExactly, Replaced, OperatorTrusted, AccountTrusted,
      ConsumersTrusted, InputOk;
    assert FlatPartitions(t) by { FlatOfRun(f, g, model, inv, t, spec, now); }
    var e :| CabinetDone(f, g, t, c, e, spec, now);
    assert e == d;
  }

  lemma FlatOfRun(f: Files, g: Files, model: Model, inv: Inventory, t: Topology, spec: RotationSpec, now: int)
    requires RunDone(f, g, model, Some(inv), t, spec, now)
    ensures FlatPartitions(t)
  {
  }

  // ---- imports ----

  /** Every account but SYSTEM has JetStream, and its JWT lists each import of the model by the key of its account. */
  lemma JwtCarries(g: Files, model: Model, inv: Option<Inventory>, t: Topology, now: int, a: Account,
                   j: AccountJwt, im: Import)
    requires TrustChain(g, model, inv, t, now) && Validate(t) && ModelOf(t, model) && a in model.accounts
    requires JwtOf(g, a, now, j)
    ensures j.jetStream <==> a.name != "SYSTEM"
    ensures im in a.imports ==>
              exists x :: x in j.imports && x.subject == im.subject
                && At(g.accountJwt, x.account).Good? && g.accountJwt[x.account].value.name == im.fromAccount
  {
    hide TrustChain, ModelOf, RevocationsOf, Validate, OperatorTrusted;
    JetStreamLanes(t, model, a);
    if im in a.imports {
      var i :| 0 <= i < |a.imports| && a.imports[i] == im;
      ImportsAreExported(t, model, a, im);
      var b :| b in model.accounts && b.name == im.fromAccount && im.subject in b.exports;
      var k := JwtOfAccount(g, model, inv, t, now, b);
      ImportCarried(g, a, j, i, b, k, now);
    }
  }

  lemma ImportCarried(g: Files, a: Account, j: AccountJwt, i: nat, b: Account, k: AccountJwt, now: int)
    requires JwtOf(g, a, now, j) && i < |a.imports| && b.name == a.imports[i].fromAccount
    requires JwtOf(g, b, now, k) && At(g.accountJwt, k.subject) == Good(k)
    ensures exists x :: x in j.imports && x.subject == a.imports[i].subject
                && At(g.accountJwt, x.account).Good? && g.accountJwt[x.account].value.name == b.name
  {
    hide RevocationsOf;
    assert j.imports[i] in j.imports;
  }

  lemma JetStreamLanes(t: Topology, model: Model, a: Account)
    requires Validate(t) && ModelOf(t, model) && a in model.accounts
    ensures a.jetStream <==> a.name != "SYSTEM"
  {
    var ids, central, dmz := MembersOf(t, model);
    FixedNamesDiffer();
    hide Validate, ModelOf, DistrictAccountName;
    if a in DistrictAccounts(t, ids) {
      var i :| 0 <= i < |ids| && DistrictAccounts(t, ids)[i] == a;
      NamesApart(ids[i]);
    }
  }

  /** What an account's JWT imports, the JWT of the account it names exports. */
  lemma JwtImportsReach(g: Files, model: Model, inv: Option<Inventory>, t: Topology, now: int, a: Account,
                        j: AccountJwt, im: JwtImport)
    requires TrustChain(g, model, inv, t, now) && ModelOf(t, model) && a in model.accounts
    requires JwtOf(g, a, now, j) && im in j.imports
    ensures var from := At(g.accountJwt, im.account);
            from.Good? && from.value.subject == im.account && im.subject in from.value.exports
  {
    hide TrustChain, ModelOf, RevocationsOf;
    var i :| 0 <= i < |j.imports| && j.imports[i] == im;
    ImportsAreExported(t, model, a, a.imports[i]);
    var b :| b in model.accounts && b.name == a.imports[i].fromAccount && im.subject in b.exports;
    var k := JwtOfAccount(g, model, inv, t, now, b);
  }

  lemma SpaceAgain(t: Topology, d: string, subject: seq<string>)
    requires d in t.district && Matches(Split(SubjectSpace(t.dot, d, t.district[d].subjectPrefix), '.'), subject)
    ensures InSpace(t, d, subject)
  {
  }

  lemma TrustedFields(f: Files, slot: Slot, account: string, u: UserJwt, name: string, perms: Permissions, now: int)
    requires UserTrusted(f, slot, account, u, name, perms, now)
    ensures u.name == name && u.permissions == perms && u.issuedAt == now
  {
  }

  lemma CabinetIsOk(f: Files, g: Files, model: Model, inv: Inventory, t: Topology, spec: RotationSpec, now: int,
                    c: Cabinet, d: string) returns (a: Account)
    requires RunDone(f, g, model, Some(inv), t, spec, now) && c in inv.cabinets && Owns(t, d, c.partition)
    ensures a in model.accounts && a.name == DistrictAccountName(d)
    ensures var p := CabinetPath(d, c.id);
            && At(g.creds, p).Good? && TrustChain(g, model, Some(inv), t, now)
            && UserTrusted(g, CabinetUser(p), a.name, g.creds[p].value, c.id,
                           Permissions([c.filter], [], [c.filter]), now)
    ensures FilterUnderDistrict(model.dot, d, t.district[d].subjectPrefix, c.filter)
  {
    hide TrustChain, Rotated, FitModel, JwtInTheWay, UserTrusted, RecordsExactly, Replaced, FilterUnderDistrict;
    var k :| 0 <= k < |inv.cabinets| && inv.cabinets[k] == c;
    assert CabinetOk(model.dot, t, model.accounts, c);
    var e :| CabinetDone(f, g, t, c, e, spec, now);
    assert e == d;
    a := FindAccount(model.accounts, DistrictAccountName(d)).value;
  }

  // ---- consumers ----

  ghost predicate SharedWith(t: Topology, consumer: string, subject: seq<string>)
  {
    exists s <- Shares(t) ::
      s.consumer == Some(consumer) && s.public.Some? && s.from.Some? && Matches(Split(s.public.value, '.'), subject)
  }

  /**
    A consumer's credential is accepted as one of the DMZ account, lets it publish nothing, and
    subscribe just what shares with its name make public.
   */
  lemma ConsumerCredential(f: Files, g: Files, model: Model, inv: Option<Inventory>, t: Topology, spec: RotationSpec,
                           now: int, share: Share, subject: seq<string>)
    requires RunDone(f, g, model, inv, t, spec, now) && Validate(t) && ModelOf(t, model) && share in Shares(t)
    requires Concrete(subject) && subject != []
    ensures share.consumer.Some?
    ensures var creds := At(g.consumerCreds, share.consumer.value);
            && creds.Good? && creds.value.name == share.consumer.value && Accepted(g, creds.value)
            && g.accountJwt[creds.value.issuerAccount].value.name == "DMZ"
            && creds.value.issuedAt == now && creds.value.expires == now + NINETY_DAYS
            && !MayPublish(creds.value.permissions, subject)
            && (MaySubscribe(creds.value.permissions, subject) <==> SharedWith(t, share.consumer.value, subject))
  {
    var c, out, a := ConsumerIsMinted(f, g, model, inv, t, spec, now, share);
    var j := JwtOfAccount(g, model, inv, t, now, a);
    var u := g.consumerCreds[c.name].value;
    var perms := Permissions([], c.pubDeny, c.subAllow);
    hide RunDone, TrustChain, Validate, ModelOf, JwtOf, OperatorTrusted, Accepted, AggregateOf;
    TrustedFields(g, ConsumerUser(c.name), a.name, u, c.name, perms, now);
    TrustedIsAccepted(g, model.dot, a, j, ConsumerUser(c.name), u, c.name, perms, now);
    hide UserTrusted;
    ConsumerScope(t, model, out, c, share.public.value);
    AllDenied(subject);
    ScopeMatches(t, model, out, c, share, subject);
  }

  lemma AllDenied(subject: seq<string>)
    requires subject != []
    ensures Permits([">"], subject)
  {
    SplitFree(">", '.');
    assert ">" in [">"];
  }

  lemma ScopeMatches(t: Topology, model: Model, out: seq<Consumer>, c: Consumer, share: Share, subject: seq<string>)
    requires Validate(t) && ModelOf(t, model) && AggregateOf(DmzUsers(model), out) && c in out
    requires share in Shares(t) && share.consumer == Some(c.name)
    ensures c.subAllow != [] && (Permits(c.subAllow, subject) <==> SharedWith(t, c.name, subject))
  {
    ShareIsComplete(t, share);
    hide Validate, ModelOf, AggregateOf, Split, Matches;
    forall x ensures x in c.subAllow <==> Granted(t, c.name, x) { ConsumerScope(t, model, out, c, x); }
    assert Granted(t, c.name, share.public.value);
    if Permits(c.subAllow, subject) {
      var x :| x in c.subAllow && Matches(Split(x, '.'), subject);
      var s :| s in Shares(t) && Complete(s) && s.consumer.value == c.name && s.public.value == x;
    }
    if SharedWith(t, c.name, subject) {
      var s :| s in Shares(t) && s.consumer == Some(c.name) && s.public.Some? && s.from.Some?
        && Matches(Split(s.public.value, '.'), subject);
      assert Granted(t, c.name, s.public.value);
    }
  }

  lemma ShareIsComplete(t: Topology, share: Share)
    requires Validate(t) && share in Shares(t)
    ensures Complete(share) && t.dmz.Some?
  {
    assert ValidShare(t.dot, share);
  }

  lemma ConsumerIsMinted(f: Files, g: Files, model: Model, inv: Option<Inventory>, t: Topology, spec: RotationSpec,
                         now: int, share: Share) returns (c: Consumer, out: seq<Consumer>, a: Account)
    requires RunDone(f, g, model, inv, t, spec, now) && Validate(t) && ModelOf(t, model) && share in Shares(t)
    ensures TrustChain(g, model, inv, t, now) && a in model.accounts && a.name == "DMZ"
    ensures AggregateOf(DmzUsers(model), out) && c in out && share.consumer == Some(c.name) && Complete(share)
    ensures At(g.consumerCreds, c.name).Good?
    ensures UserTrusted(g, ConsumerUser(c.name), "DMZ", g.consumerCreds[c.name].value, c.name,
                        Permissions([], c.pubDeny, c.subAllow), now)
  {
    ShareIsComplete(t, share);
    ConsumerHasTemplate(t, model, share);
    hide Validate, ModelOf, Rotated, FitModel, JwtInTheWay, InventoryDone, UserTrusted, InputOk, OperatorTrusted,
      AccountTrusted, CabinetTrusted, HasUser, ScopeOf;
    out :| AggregateOf(DmzUsers(model), out) && forall x :: x in out ==> ConsumerTrusted(g, x, now);
    c :| c in out && c.name == share.consumer.value;
    assert ConsumerTrusted(g, c, now);
    a := FindAccount(model.accounts, DMZ_ACCOUNT).value;
  }

  /** The files of a consumer whose name passes are entries of the directory they are put in, for either separator. */
  lemma SafeNameStays(dir: string, name: string, extension: string, separator: char)
    requires SafeFileName(name) && (separator == '/' || separator == '\\')
    requires separator !in extension && extension != "" && '.' == extension[0] && |extension| > 2
    ensures Split(dir + [separator] + (name + extension), separator) == Split(dir, separator) + [name + extension]
    ensures name + extension != "." && name + extension != ".." && name != "." && name != ".."
  {
    SplitConcat(dir, name + extension, separator);
    SplitFree(name + extension, separator);
  }

  lemma ConsumerHasTemplate(t: Topology, model: Model, share: Share)
    requires ModelOf(t, model) && share in Shares(t) && Complete(share)
    ensures HasUser(DmzUsers(model), share.consumer.value) && FindAccount(model.accounts, DMZ_ACCOUNT).Some?
  {
    DmzUsersAreShares(t, model);
    hide ModelOf;
    SameMembers(DmzUsers(model), Templates(Shares(t)));
    TemplatesOfShares(Shares(t), Template(share));
    assert Template(share) in DmzUsers(model);
  }
}

/**
  What the accounts of a topology may do, in terms of the subjects messages carry: each district keeps
  to its own space, the central account sees what the districts export, and the DMZ what is shared.
 */
module Lanes {
  import opened Basics
  import opened Text
  import opened Naming
  import opened Sorting
  import opened Topology
  import opened Accounts

  /** Some pattern of the list lets the subject pass. */
  ghost predicate Permits(patterns: seq<string>, subject: seq<string>)
  {
    exists p <- patterns :: Matches(Split(p, '.'), subject)
  }

  ghost predicate InSpace(t: Topology, d: string, subject: seq<string>)
    requires d in t.district
  {
    Matches(Split(SubjectSpace(t.dot, d, t.district[d].subjectPrefix), '.'), subject)
  }

  // ---- spaces ----

  /** A filter that passes the string test for a space matches nothing outside it. */
  lemma UnderMatches(filter: string, base: string, subject: seq<string>)
    requires UnderPrefix(filter, base + ".>") && Concrete(subject) && Matches(Split(filter, '.'), subject)
    ensures Matches(Split(base + ".>", '.'), subject)
  {
    UnderPrefixTokens(filter, base);
    SpaceTokens(base);
    hide Split, UnderPrefix;
    var f, b := Split(filter, '.'), Split(base, '.');
    var space := b + [">"];
    assert |subject| >= |f| > |b|;
    forall i | 0 <= i < |b| ensures TokenMatches(space[i], subject[i]) {
      assert f[..|b|][i] == b[i] && space[i] == b[i];
      assert TokenMatches(f[i], subject[i]);
    }
    assert space[|space| - 1] == ">";
  }

  /** A district's space, with its final wildcard taken off. */
  lemma SpaceBase(t: Topology, d: string) returns (base: string)
    requires Validate(t) && d in t.district
    ensures SubjectSpace(t.dot, d, t.district[d].subjectPrefix) == base + ".>"
  {
    assert ValidDistrict(t.dot, d, t.district[d]);
    var s := SubjectSpace(t.dot, d, t.district[d].subjectPrefix);
    if t.district[d].subjectPrefix.None? {
      base := "vikasa." + t.dot + "." + d;
    } else {
      base := s[..|s| - 2];
    }
  }

  /** Whatever a district's space holds is the dot's own. */
  lemma SpaceIsAnchored(t: Topology, d: string, subject: seq<string>)
    requires Validate(t) && d in t.district && Concrete(subject) && InSpace(t, d, subject)
    ensures |subject| > 2 && subject[0] == "vikasa" && subject[1] == t.dot
  {
    var s := SubjectSpace(t.dot, d, t.district[d].subjectPrefix);
    AnchoredTokens(t, d);
    hide Split, Validate;
    var p := Split(s, '.');
    LiteralMatches(p, subject, 0);
    LiteralMatches(p, subject, 1);
  }

  lemma AnchoredTokens(t: Topology, d: string)
    requires Validate(t) && d in t.district
    ensures var p := Split(SubjectSpace(t.dot, d, t.district[d].subjectPrefix), '.');
            |p| > 2 && p[0] == "vikasa" && p[1] == t.dot && Token(t.dot)
  {
    assert ValidDistrict(t.dot, d, t.district[d]);
    var s := SubjectSpace(t.dot, d, t.district[d].subjectPrefix);
    assert Anchor(t.dot) <= s;
    var rest := s[|Anchor(t.dot)|..];
    assert s == "vikasa" + "." + (t.dot + "." + rest);
    assert '.' !in "vikasa" && '.' !in t.dot;
    hide Split, Validate;
    SplitDotted("vikasa", t.dot + "." + rest);
    SplitDotted(t.dot, rest);
  }

  /** A token that is no wildcard and not the last one stands for itself. */
  lemma LiteralMatches(pattern: seq<string>, subject: seq<string>, i: nat)
    requires Matches(pattern, subject) && i < |pattern| - 1 && pattern[i] != "*"
    ensures |subject| >= |pattern| && subject[i] == pattern[i]
  {
    assert TokenMatches(pattern[i], subject[i]);
  }

  /** Districts that declare no prefix have disjoint spaces. */
  lemma DefaultSpacesApart(t: Topology, d: string, e: string, subject: seq<string>)
    requires Validate(t) && d in t.district && e in t.district && d != e
    requires t.district[d].subjectPrefix.None? && t.district[e].subjectPrefix.None?
    requires InSpace(t, d, subject)
    ensures !InSpace(t, e, subject)
  {
    DefaultTokens3(t, d);
    DefaultTokens3(t, e);
    hide Split, Validate;
    var p := Split(SubjectSpace(t.dot, d, None), '.');
    LiteralMatches(p, subject, 2);
    if InSpace(t, e, subject) {
      LiteralMatches(Split(SubjectSpace(t.dot, e, None), '.'), subject, 2);
    }
  }

  lemma DefaultTokens3(t: Topology, d: string)
    requires Validate(t) && d in t.district
    ensures var p := Split(SubjectSpace(t.dot, d, None), '.'); |p| == 4 && p[2] == d && d != "*"
  {
    assert ValidDistrict(t.dot, d, t.district[d]);
    assert SubjectSpace(t.dot, d, None) == "vikasa" + "." + (t.dot + "." + (d + "." + ">"));
    assert '.' !in "vikasa" && '.' !in t.dot && '.' !in d && '*' !in d && '.' !in ">";
    SplitThree("vikasa", t.dot, d, ">");
    SplitFree(">", '.');
  }

  // ---- districts ----

  lemma TheAccount(m: Model, a: Account)
    requires DistinctNames(m.accounts) && a in m.accounts
    ensures FindAccount(m.accounts, a.name) == Some(a)
  {
    var found := FindAccount(m.accounts, a.name).value;
    var i :| 0 <= i < |m.accounts| && m.accounts[i] == a;
    var j :| 0 <= j < |m.accounts| && m.accounts[j] == found;
  }

  /** A district's account exports its space, and its users get that and nothing else, both ways. */
  lemma DistrictGrants(t: Topology, m: Model, d: string) returns (a: Account)
    requires Validate(t) && ModelOf(t, m) && d in t.district
    ensures FindAccount(m.accounts, DistrictAccountName(d)) == Some(a)
    ensures a.jetStream && a.imports == [] && a.users != []
    ensures forall u <- a.users ::
              u.user == "cabinet" && u.publish == a.exports && u.subscribe == a.exports && u.publishDeny == []
              && u.subscribeDeny == []
    ensures forall s :: Permits(a.exports, s) <==> InSpace(t, d, s)
  {
    hide Validate, ModelOf, DistrictAccountName, Split;
    a := DistrictAmong(t, m, d);
    TheAccount(m, a);
    hide DistinctNames, FindAccount;
    assert a.exports == [SubjectSpace(t.dot, d, t.district[d].subjectPrefix)];
  }

  lemma DistrictAmong(t: Topology, m: Model, d: string) returns (a: Account)
    requires Validate(t) && ModelOf(t, m) && d in t.district
    ensures a == DistrictAccount(t, d) && a in m.accounts && DistinctNames(m.accounts)
  {
    NamesAreDistinct(t, m);
    a := DistrictAccount(t, d);
    hide Parts, Validate, DistrictAccountName, DistrictAccount, DistinctNames, SortedBy;
    var ids, central, dmz :|
        Parts(t, ids, central, dmz) && multiset(m.accounts) == multiset(Parted(t, ids, central, dmz));
    SameMembers(m.accounts, Parted(t, ids, central, dmz));
    hide Parted;
    var i := DistrictAt(t, ids, central, dmz, d);
  }

  /** Every filter the tools accept for a cabinet of the district lies within what its account grants. */
  lemma FiltersAreGranted(t: Topology, m: Model, d: string, filter: string, subject: seq<string>)
    requires Validate(t) && ModelOf(t, m) && d in t.district
    requires FilterUnderDistrict(t.dot, d, t.district[d].subjectPrefix, filter)
    requires Concrete(subject) && Matches(Split(filter, '.'), subject)
    ensures InSpace(t, d, subject)
    ensures var a := FindAccount(m.accounts, DistrictAccountName(d));
            a.Some? && a.value.users != [] && forall u <- a.value.users ::
              Permits(u.publish, subject) && Permits(u.subscribe, subject)
  {
    var base := SpaceBase(t, d);
    UnderMatches(filter, base, subject);
    var a := DistrictGrants(t, m, d);
  }

  // ---- the other accounts ----

  lemma MembersOf(t: Topology, m: Model) returns (ids: seq<string>, central: Account, dmz: seq<Account>)
    requires Validate(t) && ModelOf(t, m)
    ensures Parts(t, ids, central, dmz) && DistinctNames(m.accounts)
    ensures forall a :: a in m.accounts <==> a == central || a == SYSTEM || a in dmz || a in DistrictAccounts(t, ids)
  {
    NamesAreDistinct(t, m);
    hide Parts, Validate, DistinctNames, SortedBy, DistrictAccounts;
    ids, central, dmz :|
      Parts(t, ids, central, dmz) && multiset(m.accounts) == multiset(Parted(t, ids, central, dmz));
    SameMembers(m.accounts, Parted(t, ids, central, dmz));
  }

  /** CENTRAL and SYSTEM grant nobody any subject. */
  lemma FixedAccounts(t: Topology, m: Model) returns (central: Account, system: Account)
    requires Validate(t) && ModelOf(t, m)
    ensures FindAccount(m.accounts, "CENTRAL") == Some(central) && FindAccount(m.accounts, "SYSTEM") == Some(system)
    ensures forall u :: u in central.users || u in system.users ==> u.publish == [] && u.subscribe == []
    ensures central.jetStream && !system.jetStream && system.exports == [] && system.imports == []
  {
    var ids, dmz;
    ids, central, dmz := MembersOf(t, m);
    system := SYSTEM;
    TheAccount(m, central);
    TheAccount(m, system);
  }

  ghost predicate Shared(t: Topology, subject: string)
  {
    exists s <- Shares(t) :: s.consumer.Some? && s.public.Some? && s.from == Some(subject)
  }

  /** The import of a district's space from its account. */
  predicate IsSpaceOf(t: Topology, im: Import, d: string)
  {
    && d in t.district
    && im == Import(DistrictAccountName(d), SubjectSpace(t.dot, d, t.district[d].subjectPrefix))
  }

  /** The way of the data: what districts export CENTRAL imports, what is shared CENTRAL exports and the DMZ imports. */
  lemma DataPath(t: Topology, m: Model) returns (central: Account)
    requires Validate(t) && ModelOf(t, m)
    ensures FindAccount(m.accounts, "CENTRAL") == Some(central)
    ensures forall im :: im in central.imports <==> exists d :: IsSpaceOf(t, im, d)
    ensures forall e :: e in central.exports <==> Shared(t, e)
    ensures t.dmz.Some? <==> FindAccount(m.accounts, "DMZ").Some?
  {
    var ids, dmz;
    ids, central, dmz := MembersOf(t, m);
    TheAccount(m, central);
    hide ModelOf, Validate, DistinctNames, FindAccount, DistrictAccountName, SubjectSpace, DmzOf, StrictBy;
    forall e ensures e in central.exports <==> Shared(t, e) {
      assert IsFrom(Shares(t), e) <==> Shared(t, e);
    }
    forall im ensures im in central.imports <==> exists d :: IsSpaceOf(t, im, d) {
      if im in central.imports {
        var i :| 0 <= i < |central.imports| && central.imports[i] == im;
        assert IsSpaceOf(t, im, ids[i]);
      }
      if d :| IsSpaceOf(t, im, d) {
        var i :| 0 <= i < |ids| && ids[i] == d;
        assert central.imports[i] == im;
      }
    }
    DmzIsThere(t, m, ids, central, dmz);
  }

  lemma DmzIsThere(t: Topology, m: Model, ids: seq<string>, central: Account, dmz: seq<Account>)
    requires Parts(t, ids, central, dmz)
    requires forall a :: a in m.accounts <==> a == central || a == SYSTEM || a in dmz || a in DistrictAccounts(t, ids)
    ensures t.dmz.Some? <==> FindAccount(m.accounts, "DMZ").Some?
  {
    hide DistrictAccountName;
    if t.dmz.Some? {
      assert dmz[0] in m.accounts;
    } else {
      FixedNamesDiffer();
      forall i | 0 <= i < |ids| ensures DistrictAccounts(t, ids)[i].name != DMZ_ACCOUNT { NamesApart(ids[i]); }
    }
  }

  /** The DMZ account takes in what is shared and nothing else, gives nothing out, and lets no one publish. */
  lemma DmzLane(t: Topology, m: Model, a: Account)
    requires Validate(t) && ModelOf(t, m) && FindAccount(m.accounts, "DMZ") == Some(a)
    ensures forall im :: im in a.imports <==> im.fromAccount == "CENTRAL" && Shared(t, im.subject)
    ensures a.exports == [] && forall u <- a.users :: u.publish == [] && u.publishDeny == [">"]
  {
    var ids, central, dmz := MembersOf(t, m);
    DmzAccountIs(t, m, ids, central, dmz, a);
    hide ModelOf, Validate, DistinctNames, FindAccount, Parts, StrictBy;
    forall im ensures im in a.imports <==> im.fromAccount == "CENTRAL" && Shared(t, im.subject) {
      assert IsFrom(Shares(t), im.subject) <==> Shared(t, im.subject);
      assert FromCentral(a.imports, im.subject) <==> IsFrom(Shares(t), im.subject);
    }
    SameMembers(a.users, Templates(Shares(t)));
    forall u | u in a.users ensures u.publish == [] && u.publishDeny == [">"] { TemplatesOfShares(Shares(t), u); }
  }

  lemma DmzAccountIs(t: Topology, m: Model, ids: seq<string>, central: Account, dmz: seq<Account>, a: Account)
    requires Parts(t, ids, central, dmz) && FindAccount(m.accounts, "DMZ") == Some(a)
    requires forall b :: b in m.accounts <==> b == central || b == SYSTEM || b in dmz || b in DistrictAccounts(t, ids)
    ensures DmzOf(t, a)
  {
    hide DistrictAccountName, DmzOf, CentralOf;
    assert central.name == CENTRAL_ACCOUNT by { CentralName(t, ids, central, dmz); }
    FixedNamesDiffer();
    forall i | 0 <= i < |ids| ensures DistrictAccounts(t, ids)[i].name != DMZ_ACCOUNT { NamesApart(ids[i]); }
    assert a in dmz;
  }

  lemma CentralName(t: Topology, ids: seq<string>, central: Account, dmz: seq<Account>)
    requires Parts(t, ids, central, dmz)
    ensures central.name == CENTRAL_ACCOUNT
  {
  }
}

/**
  internal/plan/plan.go, once more: a buildable topology has a plan, and exactly when it has only
  one. The district a share draws on is found by walking a map, so two plans differ, if at all, in
  what the DMZ stream draws on.
 */
module PlanChoice {
  import opened Basics
  import opened Text
  import opened Naming
  import opened Sorting
  import opened Topology
  import opened Plan
  import A = Accounts

  // ---- a plan for every buildable topology ----

  ghost function Entries(t: Topology): set<Part>
    requires AllAssigned(t)
  {
    set d, q | d in t.district && q in t.district[d].partition :: PartOf(t, d, q)
  }

  lemma EntriesAre(t: Topology, x: Part)
    requires AllAssigned(t)
    ensures x in Entries(t) <==> Entry(t, x)
  {
    if Entry(t, x) { assert x == PartOf(t, x.district, x.id); }
  }

  lemma {:induction false} ListOf(s: set<Part>) returns (r: seq<Part>)
    ensures Distinct(r) && forall x :: x in r <==> x in s
    decreases s
  {
    if s == {} {
      r := [];
    } else {
      var x :| x in s;
      var rest := ListOf(s - {x});
      r := [x] + rest;
      assert forall y :: y in r <==> y == x || y in rest;
    }
  }

  lemma PartsExist(t: Topology) returns (parts: seq<Part>)
    requires AllAssigned(t) && NamesApart(t)
    ensures PartsOf(t, parts)
  {
    hide Entry;
    var list := ListOf(Entries(t));
    parts := SortExists(list, PartName);
    SameMembers(list, parts);
    PermutationKeepsDistinct(list, parts);
    forall x ensures x in parts <==> Entry(t, x) { EntriesAre(t, x); }
    forall i, j | 0 <= i < j < |parts| ensures PartName(parts[i]) != PartName(parts[j]) {
      assert parts[i] in parts && parts[j] in parts;
    }
    SortedIsStrict(parts, PartName);
  }

  lemma DnsExists(t: Topology, parts: seq<Part>) returns (dns: seq<DNSRecord>)
    requires PartsOf(t, parts) && AllPlaced(t, parts) && LeavesApart(t)
    ensures DnsOf(t, parts, dns)
  {
    hide LeafDNSName, Entry;
    var leaves := Leaves(t, parts);
    StrictIsDistinct(parts, PartName);
    forall i, j | 0 <= i < j < |leaves| ensures RecordName(leaves[i]) != RecordName(leaves[j]) {
      assert parts[i] in parts && parts[j] in parts && PartName(parts[i]) != PartName(parts[j]);
    }
    dns := SortExists(leaves, RecordName);
    PermutationDistinct(leaves, dns, RecordName);
    SortedIsStrict(dns, RecordName);
  }

  lemma {:induction false} ChoiceExists(t: Topology, shares: seq<Share>) returns (choice: seq<string>)
    requires forall s <- shares :: Fanned(s) ==> exists d :: DrawsFrom(t, s.from.value, d)
    ensures ChoiceOf(t, shares, choice)
  {
    hide DrawsFrom;
    if shares == [] {
      choice := [];
    } else {
      var n := |shares| - 1;
      var front := ChoiceExists(t, shares[..n]);
      var d := "";
      if Fanned(shares[n]) {
        assert shares[n] in shares;
        d :| DrawsFrom(t, shares[n].from.value, d);
      }
      choice := front + [d];
    }
  }

  lemma DmzExists(t: Topology, parts: seq<Part>) returns (dmz: seq<Stream>)
    requires CentralReady(t) && (HasDmz(t) ==> DmzReady(t) && SharesMatched(t))
    ensures DmzOf(t, parts, dmz)
  {
    if HasDmz(t) {
      var choice := ChoiceExists(t, t.dmz.value.shares);
      dmz := [DmzStream(t, DmzSources(t, parts, t.dmz.value.shares, choice))];
      assert DmzFrom(t, parts, choice, dmz);
    } else {
      dmz := [];
    }
  }

  /** The other half of `PlanIsBuildable`: a buildable topology has a plan. */
  lemma BuildableHasPlan(t: Topology) returns (parts: seq<Part>, dmz: seq<Stream>, p: Plan)
    requires Buildable(t)
    ensures PlanFrom(t, parts, dmz, p) && PlanOf(t, p)
  {
    hide Entry, DrawsFrom;
    parts := PartsExist(t);
    assert AllPlaced(t, parts);
    var dns := DnsExists(t, parts);
    dmz := DmzExists(t, parts);
    p := Plan(t.dot, Shards(t, parts) + Regionals(t, parts) + dmz, dns);
  }

  // ---- when it has only one ----

  ghost predicate OnePlan(t: Topology)
  {
    forall p, q :: PlanOf(t, p) && PlanOf(t, q) ==> p == q
  }

  ghost predicate Bare(t: Topology, d: string)
  {
    forall x :: Entry(t, x) ==> x.district != d
  }

  /** It does not matter which of its districts a share is matched to. */
  ghost predicate ChoiceIsIdle(t: Topology, s: Share)
  {
    Fanned(s) ==>
        forall d, e :: DrawsFrom(t, s.from.value, d) && DrawsFrom(t, s.from.value, e) ==>
            d == e || (Bare(t, d) && Bare(t, e))
  }

  ghost predicate ChoicesAreIdle(t: Topology)
  {
    HasDmz(t) ==> forall s <- A.Shares(t) :: ChoiceIsIdle(t, s)
  }

  lemma {:induction false} BareHasNoShards(t: Topology, parts: seq<Part>, d: string)
    requires Bare(t, d) && forall x <- parts :: Entry(t, x)
    ensures ShardNames(t, parts, d) == []
  {
    hide Entry;
    if parts != [] {
      var front := parts[..|parts| - 1];
      assert parts[|parts| - 1] in parts && forall x :: x in front ==> x in parts;
      BareHasNoShards(t, front, d);
    }
  }

  lemma {:induction false} SameSources(t: Topology, parts: seq<Part>, shares: seq<Share>, a: seq<string>,
                                       b: seq<string>)
    requires CentralReady(t) && ChoiceOf(t, shares, a) && ChoiceOf(t, shares, b) && forall x <- parts :: Entry(t, x)
    requires forall s <- shares :: ChoiceIsIdle(t, s)
    ensures DmzSources(t, parts, shares, a) == DmzSources(t, parts, shares, b)
  {
    hide Entry, DrawsFrom, Bare;
    if shares != [] {
      var n := |shares| - 1;
      SameSources(t, parts, shares[..n], a[..n], b[..n]);
      assert ChoiceIsIdle(t, shares[n]);
      if Fanned(shares[n]) && a[n] != b[n] {
        BareHasNoShards(t, parts, a[n]);
        BareHasNoShards(t, parts, b[n]);
      }
    }
  }

  lemma SameParts(t: Topology, a: seq<Part>, b: seq<Part>)
    requires PartsOf(t, a) && PartsOf(t, b)
    ensures a == b
  {
    StrictUnique(a, b, PartName);
  }

  lemma IdleIsOnePlan(t: Topology, p: Plan, q: Plan)
    requires ChoicesAreIdle(t) && PlanOf(t, p) && PlanOf(t, q)
    ensures p == q
  {
    var parts, dmz :| PlanFrom(t, parts, dmz, p);
    var parts2, dmz2 :| PlanFrom(t, parts2, dmz2, q);
    SameParts(t, parts, parts2);
    assert forall x <- parts :: Entry(t, x);
    hide PartsOf, DrawsFrom, Shards, Regionals, ChoiceIsIdle, Entry;
    SameMembers(p.dns, q.dns);
    StrictUnique(p.dns, q.dns, RecordName);
    if HasDmz(t) {
      var a :| DmzFrom(t, parts, a, dmz);
      var b :| DmzFrom(t, parts2, b, dmz2);
      SameSources(t, parts, t.dmz.value.shares, a, b);
    }
  }

  function FanAt(t: Topology, parts: seq<Part>, s: Share, d: string): seq<Source>
    requires CentralReady(t)
  {
    if Fanned(s) then Fan(t, s, ShardNames(t, parts, d)) else []
  }

  /** One share matched otherwise: the sources change in that share's place. */
  lemma {:induction false} ChoiceSwap(t: Topology, parts: seq<Part>, shares: seq<Share>, choice: seq<string>,
                                      i: nat, e: string)
    returns (a: seq<Source>, c: seq<Source>)
    requires CentralReady(t) && |choice| == |shares| && i < |shares|
    ensures DmzSources(t, parts, shares, choice) == a + FanAt(t, parts, shares[i], choice[i]) + c
    ensures DmzSources(t, parts, shares, choice[i := e]) == a + FanAt(t, parts, shares[i], e) + c
  {
    hide Fan, ShardNames;
    var n := |shares| - 1;
    if i == n {
      a, c := DmzSources(t, parts, shares[..n], choice[..n]), [];
      assert choice[i := e][..n] == choice[..n];
    } else {
      a, c := ChoiceSwap(t, parts, shares[..n], choice[..n], i, e);
      assert choice[i := e][..n] == choice[..n][i := e];
      var last := FanAt(t, parts, shares[n], choice[n]);
      Regroup(a, FanAt(t, parts, shares[i], choice[i]), c, last);
      Regroup(a, FanAt(t, parts, shares[i], e), c, last);
      c := c + last;
    }
  }

  lemma Regroup<T>(a: seq<T>, b: seq<T>, c: seq<T>, d: seq<T>)
    ensures a + b + c + d == a + b + (c + d)
  {
  }

  lemma Cancel<T>(a: seq<T>, b: seq<T>, c: seq<T>, d: seq<T>)
    requires a + b + d == a + c + d
    ensures b == c
  {
    assert |a + b + d| == |a| + |b| + |d| && |a + c + d| == |a| + |c| + |d|;
    forall i | 0 <= i < |b| ensures b[i] == c[i] {
      assert (a + b + d)[|a| + i] == b[i] && (a + c + d)[|a| + i] == c[i];
    }
  }

  /** Two districts with the same shards are the same district, or have none. */
  lemma SameShards(t: Topology, parts: seq<Part>, d: string, e: string)
    requires PartsOf(t, parts) && ShardNames(t, parts, d) == ShardNames(t, parts, e) && d != e
    ensures Bare(t, d)
  {
    hide Entry, ShardName;
    forall x | Entry(t, x) ensures x.district != d {
      assert x in parts;
      ShardIsOwn(t, parts, x, d);
      ShardIsOwn(t, parts, x, e);
    }
  }

  lemma FanShows(t: Topology, s: Share, a: seq<string>, b: seq<string>)
    requires CentralReady(t) && Fanned(s) && Fan(t, s, a) == Fan(t, s, b)
    ensures a == b
  {
    assert |Fan(t, s, a)| == |a| && |Fan(t, s, b)| == |b|;
    forall i | 0 <= i < |a| ensures a[i] == b[i] {
      assert Fan(t, s, a)[i].name == a[i] && Fan(t, s, b)[i].name == b[i];
    }
  }

  /** If a share could go either way and it mattered, there would be a second plan. */
  lemma OnePlanIsIdle(t: Topology, s: Share, d: string, e: string)
    requires Buildable(t) && OnePlan(t) && HasDmz(t) && s in A.Shares(t) && Fanned(s)
    requires DrawsFrom(t, s.from.value, d) && DrawsFrom(t, s.from.value, e) && d != e
    ensures Bare(t, d)
  {
    hide Buildable, DrawsFrom, PartsOf, AllPlaced, Entry, Shards, Regionals;
    var parts, dmz, p := BuildableHasPlan(t);
    var shares := t.dmz.value.shares;
    var i :| 0 <= i < |shares| && shares[i] == s;
    var choice :| DmzFrom(t, parts, choice, dmz);
    var forD, forE := choice[i := d], choice[i := e];
    var a, c := ChoiceSwap(t, parts, shares, forD, i, e);
    assert forD[i := e] == forE;
    SameChoiceSameSources(t, parts, dmz, p, forD, forE);
    Cancel(a, FanAt(t, parts, s, d), FanAt(t, parts, s, e), c);
    FanShows(t, s, ShardNames(t, parts, d), ShardNames(t, parts, e));
    SameShards(t, parts, d, e);
  }

  lemma SameChoiceSameSources(t: Topology, parts: seq<Part>, dmz: seq<Stream>, p: Plan, a: seq<string>, b: seq<string>)
    requires OnePlan(t) && PlanFrom(t, parts, dmz, p) && HasDmz(t)
    requires ChoiceOf(t, t.dmz.value.shares, a) && ChoiceOf(t, t.dmz.value.shares, b)
    ensures CentralReady(t)
    ensures DmzSources(t, parts, t.dmz.value.shares, a) == DmzSources(t, parts, t.dmz.value.shares, b)
  {
    hide PartsOf, Shards, Regionals, DrawsFrom;
    var shares := t.dmz.value.shares;
    var da, db := [DmzStream(t, DmzSources(t, parts, shares, a))], [DmzStream(t, DmzSources(t, parts, shares, b))];
    assert DmzFrom(t, parts, a, da) && DmzFrom(t, parts, b, db);
    var head := Shards(t, parts) + Regionals(t, parts);
    var pa, pb := Plan(p.dot, head + da, p.dns), Plan(p.dot, head + db, p.dns);
    assert PlanFrom(t, parts, da, pa) && PlanFrom(t, parts, db, pb);
    assert PlanOf(t, pa) && PlanOf(t, pb);
    assert (head + da)[|head|] == da[0] && (head + db)[|head|] == db[0];
  }

  /**
    A buildable topology has just one plan, whatever order its maps are walked in, exactly when no
    share of its DMZ can be matched to two districts of which one has a partition.
   */
  lemma PlanIsUniqueExactly(t: Topology)
    requires Buildable(t)
    ensures OnePlan(t) <==> ChoicesAreIdle(t)
  {
    hide Buildable, DrawsFrom, Bare;
    if ChoicesAreIdle(t) {
      forall p, q | PlanOf(t, p) && PlanOf(t, q) ensures p == q { IdleIsOnePlan(t, p, q); }
    }
    if OnePlan(t) && HasDmz(t) {
      forall s | s in A.Shares(t) && Fanned(s) ensures ChoiceIsIdle(t, s) {
        forall d, e | DrawsFrom(t, s.from.value, d) && DrawsFrom(t, s.from.value, e) && d != e
          ensures Bare(t, d) && Bare(t, e)
        {
          OnePlanIsIdle(t, s, d, e);
          OnePlanIsIdle(t, s, e, d);
        }
      }
    }
  }

  /** What a topology author can check: spaces that do not nest are enough. */
  lemma ApartIsOnePlan(t: Topology)
    requires Validate(t) && SpacesApart(t)
    ensures OnePlan(t)
  {
    hide Validate, SpacesApart, Bare;
    forall s | s in A.Shares(t) ensures ChoiceIsIdle(t, s) {
      if Fanned(s) { ApartMeansOne(t, s.from.value); }
    }
    forall p, q | PlanOf(t, p) && PlanOf(t, q) ensures p == q { IdleIsOnePlan(t, p, q); }
  }

  // ---- a topology with two plans ----

  function Inner(dot: string, a: string, b: string): string { "vikasa." + dot + "." + a + "." + b + ".>" }

  /** District b's space lies inside a's, and the one share draws on it; only a has a partition. */
  function Nested(dot: string, a: string, b: string, part: string, consumer: string): Topology
  {
    Topology(
      dot,
      map["c" := Cluster(Some("c"), Some("c.example"), Kubernetes)],
      map[a := District(map[part := Partition(Some("c"))], None), b := District(map[], Some(Inner(dot, a, b)))],
      Some(Central(Some("c"), None)),
      Some(DMZ(Some("c"), None, [InnerShare(dot, a, b, consumer)])))
  }

  function InnerShare(dot: string, a: string, b: string, consumer: string): Share
  {
    Share(Some(consumer), Some(Inner(dot, a, b)), Some(ShareSpace(dot) + consumer + ".>"))
  }

  lemma InnerIsSpace(dot: string, a: string, b: string)
    requires Token(dot) && Token(a) && Token(b)
    ensures ValidSubjectString(Inner(dot, a, b)) && Anchor(dot) <= Inner(dot, a, b) && EndsInSpace(Inner(dot, a, b))
    ensures UnderPrefix(Inner(dot, a, b), Inner(dot, a, b))
    ensures UnderPrefix(Inner(dot, a, b), "vikasa." + dot + "." + a + ".>")
  {
    InnerIsValid(dot, a, b);
    var s, outer := Inner(dot, a, b), "vikasa." + dot + "." + a + ".>";
    assert s == Anchor(dot) + (a + "." + b + ".>");
    assert s[|s| - 2..] == ".>" && outer[|outer| - 2..] == ".>";
    assert outer[..|outer| - 2] + "." == "vikasa." + dot + "." + a + ".";
    assert s == ("vikasa." + dot + "." + a + ".") + (b + ".>");
  }

  lemma InnerIsValid(dot: string, a: string, b: string)
    requires Token(dot) && Token(a) && Token(b)
    ensures ValidSubjectString(Inner(dot, a, b))
  {
    var tokens := ["vikasa", dot, a, b, ">"];
    assert LiteralToken(dot) && LiteralToken(a) && LiteralToken(b) && LiteralToken("vikasa");
    assert forall i :: 0 <= i < |tokens| ==> ValidTokenAt(tokens, i) && '.' !in tokens[i];
    ValidSubjectRoundTrip(tokens);
    hide ValidSubjectString;
    FourTokens(dot, a, b, ">");
    assert tokens[1..] == [dot, a, b, ">"];
    assert Join(tokens, '.') == "vikasa" + ['.'] + Join([dot, a, b, ">"], '.');
    assert "vikasa" + ['.'] + (dot + "." + a + "." + b + "." + ">") == Inner(dot, a, b);
  }

  lemma NestedIsValid(dot: string, a: string, b: string, part: string, consumer: string)
    requires Token(dot) && Token(a) && Token(b) && a != b && PartitionId(part) && Token(consumer)
    ensures Validate(Nested(dot, a, b, part, consumer))
  {
    InnerIsSpace(dot, a, b);
    A.DefaultShareIsValid(dot, consumer, Inner(dot, a, b));
    hide Inner, ShareSpace, ValidSubjectString, Anchor, EndsInSpace, ValidShare;
    var t := Nested(dot, a, b, part, consumer);
    assert Token("c") && |"c.example"| > 0;
    assert forall id <- t.district :: id == a || id == b;
    assert t.dmz.value.shares[0] in t.dmz.value.shares;
  }

  lemma NestedIsBuildable(dot: string, a: string, b: string, part: string, consumer: string)
    requires Token(dot) && Token(a) && Token(b) && a != b
    ensures var t := Nested(dot, a, b, part, consumer);
            && Buildable(t) && HasDmz(t) && !Bare(t, a)
            && DrawsFrom(t, Inner(dot, a, b), a) && DrawsFrom(t, Inner(dot, a, b), b)
  {
    InnerIsSpace(dot, a, b);
    hide Inner, ShareSpace, ValidSubjectString, Anchor, EndsInSpace, PartitionStreamName, LeafDNSName, UnderPrefix;
    var t := Nested(dot, a, b, part, consumer);
    assert Owns(t, a, part);
    assert Entry(t, PartOf(t, a, part));
    assert forall x :: Entry(t, x) ==> x == PartOf(t, a, part);
    assert DrawsFrom(t, Inner(dot, a, b), a);
  }

  /** Such a topology is valid and can be built, and Go's map order decides what its DMZ draws on. */
  lemma NestedHasTwoPlans(dot: string, a: string, b: string, part: string, consumer: string)
    requires Token(dot) && Token(a) && Token(b) && a != b && PartitionId(part) && Token(consumer)
    ensures var t := Nested(dot, a, b, part, consumer); Validate(t) && Buildable(t) && !OnePlan(t)
  {
    NestedIsValid(dot, a, b, part, consumer);
    NestedIsBuildable(dot, a, b, part, consumer);
    hide Validate, Buildable, OnePlan, DrawsFrom, Bare, Inner;
    var t := Nested(dot, a, b, part, consumer);
    PlanIsUniqueExactly(t);
    var s := t.dmz.value.shares[0];
    assert s in A.Shares(t) && Fanned(s) && s.from.value == Inner(dot, a, b);
    assert !ChoiceIsIdle(t, s);
  }

  // ---- a topology whose imports are out of order ----

  /** Two districts without partitions. */
  function TwoDistricts(dot: string, d: string, e: string): Topology
  {
    Topology(
      dot,
      map["c" := Cluster(Some("c"), Some("c.example"), Kubernetes)],
      map[d := District(map[], None), e := District(map[], None)],
      Some(Central(Some("c"), None)),
      None)
  }

  lemma TwoDistrictsAreFine(dot: string, d: string, e: string)
    requires Token(dot) && Token(d) && Token(e)
    ensures var t := TwoDistricts(dot, d, e); Validate(t) && Buildable(t)
  {
    assert Token("c") && |"c.example"| > 0;
    assert forall x :: !Entry(TwoDistricts(dot, d, e), x);
  }

  /** Districts a-b and ab: it is valid and builds, and CENTRAL's imports are not in order of account. */
  lemma DashedDistricts(dot: string, a: string, b: string, m: A.Model, central: A.Account)
    requires Token(dot) && Token(a) && Token(b)
    requires A.ModelOf(TwoDistricts(dot, a + "-" + b, a + b), m)
    requires central in m.accounts && central.name == CENTRAL_ACCOUNT
    ensures var t := TwoDistricts(dot, a + "-" + b, a + b);
            Validate(t) && Buildable(t) && !A.OrderedByAccount(central.imports)
  {
    var d, e := a + "-" + b, a + b;
    var t := TwoDistricts(dot, d, e);
    assert Token(d) && Token(e);
    TwoDistrictsAreFine(dot, d, e);
    A.DashAfter(a, "-" + b, b);
    assert a + ("-" + b) == d;
    hide Validate, Buildable, A.ModelOf, A.OrderedByAccount, Token;
    A.CentralImportsOrdered(t, m, central);
    assert d in t.district && e in t.district && A.DashFirst(d, e);
  }

  // ---- a topology whose names collide ----

  /** Partition e in district d, and f in z, on one cluster. */
  function TwoParts(dot: string, d: string, e: string, z: string, f: string): Topology
  {
    Topology(
      dot,
      map["c" := Cluster(Some("c"), Some("c.example"), Kubernetes)],
      map[d := District(map[e := Partition(Some("c"))], None), z := District(map[f := Partition(Some("c"))], None)],
      Some(Central(Some("c"), None)),
      None)
  }

  lemma TwoPartsAreValid(dot: string, d: string, e: string, z: string, f: string)
    requires Token(dot) && Token(d) && PartitionId(e) && Token(z) && PartitionId(f) && d != z && e != f
    ensures Validate(TwoParts(dot, d, e, z, f)) && FlatPartitions(TwoParts(dot, d, e, z, f))
  {
    assert Token("c") && |"c.example"| > 0;
    hide Token, PartitionId;
    var t := TwoParts(dot, d, e, z, f);
    assert forall x <- t.district :: x == d || x == z;
    assert t.district[d].partition.Keys == {e} && t.district[z].partition.Keys == {f};
  }

  lemma TwoPartsEntries(dot: string, d: string, e: string, z: string, f: string, x: Part)
    requires d != z
    ensures Entry(TwoParts(dot, d, e, z, f), x) <==>
              || x == Part(d, e, "c", PartitionStreamName(dot, d, e))
              || x == Part(z, f, "c", PartitionStreamName(dot, z, f))
  {
    hide PartitionStreamName;
    var t := TwoParts(dot, d, e, z, f);
    assert x.district in t.district ==> x.district == d || x.district == z;
  }

  lemma TwoPartsBuild(dot: string, d: string, e: string, z: string, f: string)
    requires d != z && PartitionStreamName(dot, d, e) != PartitionStreamName(dot, z, f)
    requires LeafDNSName(dot, e) != LeafDNSName(dot, f)
    ensures Buildable(TwoParts(dot, d, e, z, f)) && CentralReady(TwoParts(dot, d, e, z, f))
  {
    hide PartitionStreamName, LeafDNSName, Entry;
    forall x { TwoPartsEntries(dot, d, e, z, f, x); }
  }

  lemma PlainIds(a: string, b: string)
    requires Token(a) && Token(b)
    ensures PartitionId(a + "-" + b) && PartitionId(b) && a + "-" + b != b
    ensures Token("c") && Token("central") && "c.example" != ""
  {
    SplitFree(a + "-" + b, '/');
    SplitFree(b, '/');
    assert |a + "-" + b| > |b| && |"c.example"| > 0;
  }

  /** Partition a-b of a district called central, and partition b of district a. */
  function Clashing(dot: string, a: string, b: string): Topology { TwoParts(dot, "central", a + "-" + b, a, b) }

  lemma ClashingNames(dot: string, a: string, b: string)
    ensures PartitionStreamName(dot, "central", a + "-" + b) != PartitionStreamName(dot, a, b)
    ensures LeafDNSName(dot, a + "-" + b) != LeafDNSName(dot, b)
  {
    assert |PartitionStreamName(dot, "central", a + "-" + b)| > |PartitionStreamName(dot, a, b)|;
    assert |LeafDNSName(dot, a + "-" + b)| > |LeafDNSName(dot, b)|;
  }

  lemma ClashingClash(dot: string, a: string, b: string)
    requires a != "central"
    ensures CentralClash(Clashing(dot, a, b))
  {
    CentralNamesMeet(dot, a, b);
    hide PartitionStreamName, CentralShardStreamName, ClashingPair;
    var x := Part(a, b, "c", PartitionStreamName(dot, a, b));
    var y := Part("central", a + "-" + b, "c", PartitionStreamName(dot, "central", a + "-" + b));
    TwoPartsEntries(dot, "central", a + "-" + b, a, b, x);
    TwoPartsEntries(dot, "central", a + "-" + b, a, b, y);
    ShardAgainstRegional(Clashing(dot, a, b), x, y);
  }

  /** It is valid and builds, and one partition's stream has the name of the other's shard. */
  lemma CentralDistrictClashes(dot: string, a: string, b: string) returns (p: Plan)
    requires Token(dot) && Token(a) && Token(b) && a != "central"
    ensures var t := Clashing(dot, a, b);
            Validate(t) && Buildable(t) && CentralClash(t) && PlanOf(t, p) && !NamesDiffer(p.streams)
  {
    hide Validate, PartitionStreamName, LeafDNSName, FlatPartitions, CentralClash, TwoParts, Token, PartitionId;
    var t := Clashing(dot, a, b);
    PlainIds(a, b);
    ClashingNames(dot, a, b);
    ClashingClash(dot, a, b);
    hide Buildable;
    TwoPartsAreValid(dot, "central", a + "-" + b, a, b);
    TwoPartsBuild(dot, "central", a + "-" + b, a, b);
    var parts, dmz;
    parts, dmz, p := BuildableHasPlan(t);
    NamesDifferExactly(t, p);
  }
}

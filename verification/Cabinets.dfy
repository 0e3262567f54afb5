/**
  internal/plan/cabinets.go: hanging a fleet's cabinets on the plan's regional streams, and the
  agreement of its checks with those of issuance.
 */
module Cabinets {
  import opened Basics
  import opened Text
  import opened Naming
  import opened Sorting
  import opened Topology
  import opened Fleet
  import opened Plan
  import A = Accounts
  import I = IssuanceSpec
  import B = Bundle

  datatype AttachError =
    | WrongDot
    | DuplicatePartition
    | UndefinedPartition(id: string)
    | NoStream(id: string)
    | OutsideDistrict(id: string)

  function BufferSource(c: Cabinet): Source { Source(BUFFER_STREAM, c.id, c.filter, "", "") }

  function Domain(s: Source): string { s.domain }

  /** The regional streams by name; of two with one name the later counts. */
  ghost predicate StreamIndex(streams: seq<Stream>, index: map<string, nat>)
  {
    && (forall n <- index ::
          index[n] < |streams| && streams[index[n]].tier.RegionalTier? && streams[index[n]].name == n)
    && forall i :: 0 <= i < |streams| && streams[i].tier.RegionalTier? ==>
        streams[i].name in index && i <= index[streams[i].name]
  }

  ghost predicate HasRegional(streams: seq<Stream>, name: string)
  {
    exists s <- streams :: s.tier.RegionalTier? && s.name == name
  }

  predicate FilterFits(dot: string, t: Topology, d: string, c: Cabinet)
    requires d in t.district
  {
    c.filter != "" ==> FilterUnderDistrict(dot, d, t.district[d].subjectPrefix, c.filter)
  }

  /** A cabinet has a place: a district's partition, its stream, and a filter inside the district's space. */
  ghost predicate CabinetFits(streams: seq<Stream>, dot: string, t: Topology, c: Cabinet)
  {
    exists d :: Owns(t, d, c.partition)
        && HasRegional(streams, PartitionStreamName(dot, d, c.partition)) && FilterFits(dot, t, d, c)
  }

  ghost predicate AttachOk(streams: seq<Stream>, dot: string, t: Topology, inv: Inventory)
  {
    inv.dot == dot && FlatPartitions(t) && forall c <- inv.cabinets :: CabinetFits(streams, dot, t, c)
  }

  // ---- the result ----

  function Home(dot: string, districts: map<string, string>, index: map<string, nat>, c: Cabinet): Option<nat>
  {
    if c.partition !in districts then None
    else
      var name := PartitionStreamName(dot, districts[c.partition], c.partition);
      if name in index then Some(index[name]) else None
  }

  /** What the cabinets of a list bring to the k-th stream. */
  function Arrivals(dot: string, districts: map<string, string>, index: map<string, nat>, cs: seq<Cabinet>,
                    k: nat): seq<Source>
  {
    if cs == [] then []
    else
      var c := cs[|cs| - 1];
      Arrivals(dot, districts, index, cs[..|cs| - 1], k)
      + (if Home(dot, districts, index, c) == Some(k) then [BufferSource(c)] else [])
  }

  ghost predicate Received(before: Stream, after: Stream, arrivals: seq<Source>)
  {
    && after == before.(sources := after.sources)
    && (if arrivals == [] then after.sources == before.sources
        else SortedBy(after.sources, Domain) && multiset(after.sources) == multiset(before.sources + arrivals))
  }

  ghost predicate Maps(streams: seq<Stream>, t: Topology, districts: map<string, string>, index: map<string, nat>)
  {
    I.IndexOf(t, districts) && StreamIndex(streams, index)
  }

  ghost predicate AttachedBy(before: seq<Stream>, after: seq<Stream>, dot: string, cs: seq<Cabinet>,
                             districts: map<string, string>, index: map<string, nat>)
  {
    && |after| == |before|
    && forall k :: 0 <= k < |before| ==> Received(before[k], after[k], Arrivals(dot, districts, index, cs, k))
  }

  ghost predicate Attached(before: seq<Stream>, after: seq<Stream>, dot: string, t: Topology, inv: Inventory)
  {
    exists districts, index :: Maps(before, t, districts, index)
        && AttachedBy(before, after, dot, inv.cabinets, districts, index)
  }

  /** All a failed call may have done: add sources at the end. */
  ghost predicate OnlyGrown(before: seq<Stream>, after: seq<Stream>)
  {
    && |after| == |before|
    && forall k :: 0 <= k < |before| ==>
        after[k] == before[k].(sources := after[k].sources) && before[k].sources <= after[k].sources
  }

  // ---- AttachCabinets ----

  class PlanObject {
    const dot: string
    var streams: seq<Stream>

    constructor (p: Plan)
      ensures dot == p.dot && streams == p.streams
    {
      dot, streams := p.dot, p.streams;
    }

    method AttachCabinets(inv: Option<Inventory>, t: Topology) returns (o: Outcome<AttachError>)
      modifies this
      ensures inv.None? ==> o.Pass? && streams == old(streams)
      ensures inv.Some? ==> (o.Pass? <==> AttachOk(old(streams), dot, t, inv.value))
      ensures inv.Some? && o.Pass? ==> Attached(old(streams), streams, dot, t, inv.value)
      ensures o.Fail? ==> OnlyGrown(old(streams), streams)
    {
      hide AttachOk, Attached;
      if inv.None? {
        return Pass;
      }
      if inv.value.dot != dot {
        NotOk(streams, dot, t, inv.value);
        return Fail(WrongDot);
      }
      var flat := PartitionIndex(t);
      if flat.None? {
        NotOk(streams, dot, t, inv.value);
        return Fail(DuplicatePartition);
      }
      var index := RegionalIndex();
      assert forall p <- flat.value :: Owns(t, flat.value[p], p);
      var touched;
      ghost var before := streams;
      o, touched := Append(inv.value.cabinets, t, flat.value, index);
      if o.Fail? {
        NotOk(before, dot, t, inv.value);
        return;
      }
      SortTouched(touched);
      AllFit(before, streams, dot, t, inv.value, flat.value, index);
    }

    method RegionalIndex() returns (index: map<string, nat>)
      ensures StreamIndex(streams, index)
    {
      index := map[];
      for i := 0 to |streams|
        invariant forall n <- index ::
            index[n] < i && streams[index[n]].tier.RegionalTier? && streams[index[n]].name == n
        invariant forall j :: 0 <= j < i && streams[j].tier.RegionalTier? ==>
            streams[j].name in index && j <= index[streams[j].name]
      {
        if streams[i].tier.RegionalTier? {
          index := index[streams[i].name := i];
        }
      }
    }

    /** The loop over the inventory. */
    method Append(cs: seq<Cabinet>, t: Topology, districts: map<string, string>, index: map<string, nat>)
      returns (o: Outcome<AttachError>, touched: set<nat>)
      requires Maps(streams, t, districts, index) && forall p <- districts :: districts[p] in t.district
      modifies this
      ensures o.Pass? ==> forall c <- cs :: CabinetFits(old(streams), dot, t, c)
      ensures o.Pass? ==> Placing(old(streams), streams, touched, dot, districts, index, cs)
      ensures o.Fail? ==> OnlyGrown(old(streams), streams) && exists c <- cs :: !CabinetFits(old(streams), dot, t, c)
    {
      hide CabinetFits, Home, StreamIndex, FilterFits;
      touched := {};
      for i := 0 to |cs|
        invariant |streams| == |old(streams)|
        invariant forall k :: 0 <= k < i ==> CabinetFits(old(streams), dot, t, cs[k])
        invariant Placing(old(streams), streams, touched, dot, districts, index, cs[..i])
      {
        var c := cs[i];
        var e := Check(dot, t, districts, index, c);
        CheckIsFit(old(streams), dot, t, districts, index, c);
        if e.Fail? {
          assert c in cs;
          PlacingIsGrown(old(streams), streams, touched, dot, districts, index, cs[..i]);
          return e, touched;
        }
        var k := Home(dot, districts, index, c).value;
        assert cs[..i + 1] == cs[..i] + [c];
        PlacingStep(old(streams), streams, touched, dot, districts, index, cs[..i], c, k);
        streams := streams[k := streams[k].(sources := streams[k].sources + [BufferSource(c)])];
        touched := touched + {k};
      }
      assert cs[..|cs|] == cs;
      o := Pass;
    }

    method SortTouched(touched: set<nat>)
      requires forall k <- touched :: k < |streams|
      modifies this
      ensures |streams| == |old(streams)|
      ensures forall k :: 0 <= k < |streams| && k !in touched ==> streams[k] == old(streams)[k]
      ensures forall k <- touched :: InOrder(old(streams)[k], streams[k])
    {
      var todo := touched;
      while todo != {}
        invariant todo <= touched && |streams| == |old(streams)|
        invariant forall k :: 0 <= k < |streams| && (k !in touched || k in todo) ==> streams[k] == old(streams)[k]
        invariant forall k <- touched :: k !in todo ==> InOrder(old(streams)[k], streams[k])
      {
        var k :| k in todo;
        var sorted := SortSlice(streams[k].sources, Domain);
        streams := streams[k := streams[k].(sources := sorted)];
        todo := todo - {k};
      }
    }

    /** The regional stream with the most sources; of several the first by name. */
    method MaxPartitionFanIn() returns (name: string, count: nat)
      ensures forall s <- streams :: s.tier.RegionalTier? ==> |s.sources| <= count
      ensures count == 0 ==> name == ""
      ensures count > 0 ==> exists s <- streams :: s.tier.RegionalTier? && s.name == name && |s.sources| == count
      ensures forall s <- streams :: s.tier.RegionalTier? && |s.sources| == count ==> !Less(s.name, name)
    {
      name, count := "", 0;
      for i := 0 to |streams|
        invariant forall j :: 0 <= j < i && streams[j].tier.RegionalTier? ==> |streams[j].sources| <= count
        invariant count == 0 ==> name == ""
        invariant count > 0 ==>
            exists j :: 0 <= j < i && streams[j].tier.RegionalTier?
                && streams[j].name == name && |streams[j].sources| == count
        invariant forall j :: 0 <= j < i && streams[j].tier.RegionalTier? && |streams[j].sources| == count ==>
            !Less(streams[j].name, name)
      {
        var s := streams[i];
        if s.tier.RegionalTier? && (|s.sources| > count || (|s.sources| == count && Less(s.name, name))) {
          LeastSoFar(streams, i, name, count);
          name, count := s.name, |s.sources|;
        }
      }
    }
  }

  lemma LeastSoFar(streams: seq<Stream>, i: nat, name: string, count: nat)
    requires i < |streams|
    requires forall j :: 0 <= j < i && streams[j].tier.RegionalTier? ==> |streams[j].sources| <= count
    requires forall j :: 0 <= j < i && streams[j].tier.RegionalTier? && |streams[j].sources| == count ==>
        !Less(streams[j].name, name)
    requires |streams[i].sources| > count || Less(streams[i].name, name)
    ensures !Less(streams[i].name, streams[i].name)
    ensures |streams[i].sources| == count ==>
      forall j :: 0 <= j < i && streams[j].tier.RegionalTier? && |streams[j].sources| == count ==>
          !Less(streams[j].name, streams[i].name)
  {
    var n := streams[i].name;
    if Less(n, n) { LessIrreflexive(n, n); }
    forall j | 0 <= j < i && streams[j].tier.RegionalTier?
        && |streams[j].sources| == count && |streams[i].sources| == count
      ensures !Less(streams[j].name, n)
    {
      if Less(streams[j].name, n) { LessTrans(streams[j].name, n, name); }
    }
  }

  ghost predicate Extended(before: Stream, after: Stream, arrivals: seq<Source>)
  {
    after == before.(sources := before.sources + arrivals)
  }

  ghost predicate InOrder(before: Stream, after: Stream)
  {
    && after == before.(sources := after.sources)
    && SortedBy(after.sources, Domain) && multiset(after.sources) == multiset(before.sources)
  }

  /** The cabinets of cs have been hung up, each at the end of its stream's sources. */
  ghost predicate Placing(before: seq<Stream>, after: seq<Stream>, touched: set<nat>, dot: string,
                          districts: map<string, string>, index: map<string, nat>, cs: seq<Cabinet>)
  {
    && |after| == |before|
    && (forall k :: 0 <= k < |before| ==> Extended(before[k], after[k], Arrivals(dot, districts, index, cs, k)))
    && forall k: nat :: k in touched <==> k < |before| && Arrivals(dot, districts, index, cs, k) != []
  }

  lemma PlacingStep(before: seq<Stream>, after: seq<Stream>, touched: set<nat>, dot: string,
                    districts: map<string, string>, index: map<string, nat>, cs: seq<Cabinet>, c: Cabinet, k: nat)
    requires Placing(before, after, touched, dot, districts, index, cs) && k < |after|
    requires Home(dot, districts, index, c) == Some(k)
    ensures Placing(before, after[k := after[k].(sources := after[k].sources + [BufferSource(c)])], touched + {k},
                    dot, districts, index, cs + [c])
  {
    hide Home;
    assert (cs + [c])[..|cs|] == cs;
  }

  lemma PlacingIsGrown(before: seq<Stream>, after: seq<Stream>, touched: set<nat>, dot: string,
                       districts: map<string, string>, index: map<string, nat>, cs: seq<Cabinet>)
    requires Placing(before, after, touched, dot, districts, index, cs)
    ensures OnlyGrown(before, after)
  {
    hide Arrivals;
  }

  /** The checks on one cabinet, in their order. */
  function Check(dot: string, t: Topology, districts: map<string, string>, index: map<string, nat>, c: Cabinet)
    : Outcome<AttachError>
    requires forall p <- districts :: districts[p] in t.district
  {
    if c.partition !in districts then Fail(UndefinedPartition(c.id))
    else if Home(dot, districts, index, c).None? then Fail(NoStream(c.id))
    else if !FilterFits(dot, t, districts[c.partition], c) then Fail(OutsideDistrict(c.id))
    else Pass
  }

  lemma CheckIsFit(streams: seq<Stream>, dot: string, t: Topology, districts: map<string, string>,
                   index: map<string, nat>, c: Cabinet)
    requires Maps(streams, t, districts, index) && forall p <- districts :: districts[p] in t.district
    ensures Check(dot, t, districts, index, c).Pass? <==> CabinetFits(streams, dot, t, c)
    ensures Check(dot, t, districts, index, c).Pass? ==>
      Home(dot, districts, index, c).Some? && Home(dot, districts, index, c).value < |streams|
  {
    hide PartitionStreamName;
    assert forall d :: Owns(t, d, c.partition) <==> c.partition in districts && districts[c.partition] == d;
    if c.partition in districts {
      var name := PartitionStreamName(dot, districts[c.partition], c.partition);
      if name in index { assert streams[index[name]] in streams; }
      assert HasRegional(streams, name) <==> name in index;
    }
  }

  lemma NotOk(streams: seq<Stream>, dot: string, t: Topology, inv: Inventory)
    requires inv.dot != dot || !FlatPartitions(t) || exists c <- inv.cabinets :: !CabinetFits(streams, dot, t, c)
    ensures !AttachOk(streams, dot, t, inv)
  {
  }

  lemma AllFit(before: seq<Stream>, after: seq<Stream>, dot: string, t: Topology, inv: Inventory,
               districts: map<string, string>, index: map<string, nat>)
    requires inv.dot == dot && FlatPartitions(t) && Maps(before, t, districts, index)
    requires forall c <- inv.cabinets :: CabinetFits(before, dot, t, c)
    requires |after| == |before| && forall k :: 0 <= k < |before| ==>
        Received(before[k], after[k], Arrivals(dot, districts, index, inv.cabinets, k))
    ensures AttachOk(before, dot, t, inv) && Attached(before, after, dot, t, inv)
  {
    assert AttachedBy(before, after, dot, inv.cabinets, districts, index);
  }

  // ---- the generator and the issuer ----

  /** The two tools accept the same inventories, except that only issuance insists on filters. */
  lemma ToolsAgree(t: Topology, p: Plan, m: A.Model, inv: Inventory, spec: I.RotationSpec)
    requires PlanOf(t, p) && A.ModelOf(t, m)
    ensures I.InventoryOk(m, inv, t, spec) <==>
              && AttachOk(p.streams, p.dot, t, inv)
              && (forall c <- inv.cabinets :: c.filter != "")
              && forall id <- spec.cabinets :: I.InInventory(inv, id)
  {
    hide PlanOf, A.ModelOf;
    SameDot(t, p, m);
    forall c ensures I.CabinetOk(m.dot, t, m.accounts, c) <==> CabinetFits(p.streams, p.dot, t, c) && c.filter != "" {
      CabinetsAgree(t, p, m, c);
    }
    hide I.CabinetOk, CabinetFits;
    var cs := inv.cabinets;
    assert (forall k :: 0 <= k < |cs| ==> I.CabinetOk(m.dot, t, m.accounts, cs[k])) <==>
        forall c <- cs :: I.CabinetOk(m.dot, t, m.accounts, c);
  }

  lemma SameDot(t: Topology, p: Plan, m: A.Model)
    requires PlanOf(t, p) && A.ModelOf(t, m)
    ensures p.dot == t.dot == m.dot
  {
  }

  lemma CabinetsAgree(t: Topology, p: Plan, m: A.Model, c: Cabinet)
    requires PlanOf(t, p) && A.ModelOf(t, m) && p.dot == t.dot == m.dot
    ensures I.CabinetOk(m.dot, t, m.accounts, c) <==> CabinetFits(p.streams, p.dot, t, c) && c.filter != ""
  {
    hide PlanOf, A.ModelOf, PartitionStreamName, FilterUnderDistrict;
    forall d | Owns(t, d, c.partition)
      ensures HasRegional(p.streams, PartitionStreamName(p.dot, d, c.partition))
      ensures A.FindAccount(m.accounts, DistrictAccountName(d)).Some?
    {
      PartitionHasStream(t, p, d, c.partition);
      A.DistrictHasAccount(t, m, d);
    }
  }

  lemma PartitionHasStream(t: Topology, p: Plan, d: string, part: string)
    requires PlanOf(t, p) && Owns(t, d, part) && p.dot == t.dot
    ensures HasRegional(p.streams, PartitionStreamName(p.dot, d, part))
  {
    AllAreAssigned(t, p);
    var i, _ := EveryPartitionOnce(t, p, PartOf(t, d, part));
    assert p.streams[i] in p.streams;
  }

  lemma AllAreAssigned(t: Topology, p: Plan)
    requires PlanOf(t, p)
    ensures AllAssigned(t)
  {
  }

  // ---- what the generator works on ----

  /** What the generator makes of a plan it has built: the inventory it was given, if any, is attached. */
  ghost predicate Made(t: Topology, inv: Option<Inventory>, built: Plan, p: Plan)
  {
    && PlanOf(t, built) && p == built.(streams := p.streams)
    && match inv
       case None => p == built
       case Some(v) =>
         Loaded(v) && AttachOk(built.streams, built.dot, t, v) && Attached(built.streams, p.streams, built.dot, t, v)
  }

  /** The same stream, but for the sources of a regional one. */
  ghost predicate SamePlace(a: Stream, b: Stream)
  {
    b == a.(sources := b.sources) && (!a.tier.RegionalTier? ==> b == a)
  }

  ghost predicate SamePlaces(a: seq<Stream>, b: seq<Stream>)
  {
    |b| == |a| && forall k :: 0 <= k < |a| ==> SamePlace(a[k], b[k])
  }

  lemma MadeInPlace(t: Topology, inv: Option<Inventory>, built: Plan, p: Plan)
    requires Made(t, inv, built, p)
    ensures SamePlaces(built.streams, p.streams)
  {
    hide Loaded, PlanOf, AttachOk;
    if inv.Some? {
      var v := inv.value;
      var districts, index :| Maps(built.streams, t, districts, index)
        && AttachedBy(built.streams, p.streams, built.dot, v.cabinets, districts, index);
      forall k | 0 <= k < |built.streams| ensures SamePlace(built.streams[k], p.streams[k]) {
        SourcesAre(t, built, v, p.streams, districts, index, k);
      }
    }
  }

  lemma MadeNames(t: Topology, inv: Option<Inventory>, built: Plan, p: Plan)
    requires Made(t, inv, built, p)
    ensures NamesDiffer(p.streams) <==> NamesDiffer(built.streams)
    ensures StrictBy(p.streams, Rank)
  {
    hide PlanOf, Less, Attached, AttachOk;
    MadeInPlace(t, inv, built, p);
    WavesInOrder(t, built);
    hide Made;
    assert forall k :: 0 <= k < |p.streams| ==>
        p.streams[k].name == built.streams[k].name && Rank(p.streams[k]) == Rank(built.streams[k]);
    hide Rank;
  }

  lemma BuiltIsMade(t: Topology, p: Plan)
    requires PlanOf(t, p)
    ensures Made(t, None, p, p)
  {
  }

  // ---- where a cabinet ends up ----

  lemma {:induction false} ArrivalsAre(dot: string, districts: map<string, string>, index: map<string, nat>,
                                       cs: seq<Cabinet>, k: nat, s: Source)
    ensures s in Arrivals(dot, districts, index, cs, k) <==>
              exists c <- cs :: Home(dot, districts, index, c) == Some(k) && s == BufferSource(c)
  {
    if cs != [] {
      var front, last := cs[..|cs| - 1], cs[|cs| - 1];
      ArrivalsAre(dot, districts, index, front, k, s);
      assert cs == front + [last];
    }
  }

  ghost predicate DistinctIds(cs: seq<Cabinet>) { forall i, j :: 0 <= i < j < |cs| ==> cs[i].id != cs[j].id }

  lemma {:induction false} ArrivalsDistinct(dot: string, districts: map<string, string>, index: map<string, nat>,
                                            cs: seq<Cabinet>, k: nat)
    requires DistinctIds(cs)
    ensures DistinctKeys(Arrivals(dot, districts, index, cs, k), Domain)
  {
    if cs != [] {
      var front, last := cs[..|cs| - 1], cs[|cs| - 1];
      ArrivalsDistinct(dot, districts, index, front, k);
      var earlier := Arrivals(dot, districts, index, front, k);
      forall i | 0 <= i < |earlier| ensures Domain(earlier[i]) != last.id {
        ArrivalsAre(dot, districts, index, front, k, earlier[i]);
        var c :| c in front && earlier[i] == BufferSource(c);
        var j :| 0 <= j < |front| && front[j] == c;
        assert cs[j] == c;
      }
    }
  }

  /** Before cabinets arrive, a regional stream of a plan has no sources. */
  lemma RegionalsAreBare(t: Topology, p: Plan, s: Stream)
    requires PlanOf(t, p) && s in p.streams && s.tier.RegionalTier?
    ensures s.sources == []
  {
    NothingElse(t, p, s);
  }

  /** A stream's sources after the call, in strict order of the cabinets' domains. */
  lemma SourcesAre(t: Topology, p: Plan, inv: Inventory, after: seq<Stream>, districts: map<string, string>,
                   index: map<string, nat>, k: nat)
    requires Loaded(inv) && PlanOf(t, p) && Maps(p.streams, t, districts, index)
    requires AttachedBy(p.streams, after, p.dot, inv.cabinets, districts, index) && k < |after|
    ensures after[k] == p.streams[k].(sources := after[k].sources)
    ensures !after[k].tier.RegionalTier? ==> after[k] == p.streams[k]
    ensures after[k].tier.RegionalTier? ==>
      && StrictBy(after[k].sources, Domain)
      && forall s :: s in after[k].sources <==>
          exists c <- inv.cabinets :: Home(p.dot, districts, index, c) == Some(k) && s == BufferSource(c)
  {
    var arrivals := Arrivals(p.dot, districts, index, inv.cabinets, k);
    assert Received(p.streams[k], after[k], arrivals) && p.streams[k] in p.streams;
    hide Loaded, PlanOf, AttachedBy, Received;
    forall s ensures s in arrivals <==>
        exists c <- inv.cabinets :: Home(p.dot, districts, index, c) == Some(k) && s == BufferSource(c) {
      ArrivalsAre(p.dot, districts, index, inv.cabinets, k, s);
    }
    HomesAreRegional(p.streams, t, p.dot, districts, index, inv.cabinets, k);
    hide Home, Maps, BufferSource;
    SamePlacement(p.streams[k], after[k], arrivals);
    if after[k].tier.RegionalTier? {
      IdsAreDistinct(inv);
      ArrivalsDistinct(p.dot, districts, index, inv.cabinets, k);
      RegionalsAreBare(t, p, p.streams[k]);
      ReceivedBare(p.streams[k], after[k], arrivals);
    }
  }

  lemma IdsAreDistinct(inv: Inventory)
    requires Loaded(inv)
    ensures DistinctIds(inv.cabinets)
  {
  }

  lemma SamePlacement(before: Stream, after: Stream, arrivals: seq<Source>)
    requires Received(before, after, arrivals)
    ensures after == before.(sources := after.sources) && (arrivals == [] ==> after == before)
  {
  }

  lemma ReceivedBare(before: Stream, after: Stream, arrivals: seq<Source>)
    requires Received(before, after, arrivals) && before.sources == [] && DistinctKeys(arrivals, Domain)
    ensures StrictBy(after.sources, Domain) && forall s :: s in after.sources <==> s in arrivals
  {
    assert [] + arrivals == arrivals;
    if arrivals != [] {
      PermutationDistinct(arrivals, after.sources, Domain);
      SortedIsStrict(after.sources, Domain);
      SameMembers(arrivals, after.sources);
    }
  }

  lemma HomesAreRegional(streams: seq<Stream>, t: Topology, dot: string, districts: map<string, string>,
                         index: map<string, nat>, cs: seq<Cabinet>, k: nat)
    requires Maps(streams, t, districts, index) && k < |streams|
    ensures !streams[k].tier.RegionalTier? ==> Arrivals(dot, districts, index, cs, k) == []
  {
    var arrivals := Arrivals(dot, districts, index, cs, k);
    assert forall c :: Home(dot, districts, index, c) == Some(k) ==> streams[k].tier.RegionalTier?;
    if arrivals != [] {
      ArrivalsAre(dot, districts, index, cs, k, arrivals[0]);
      assert arrivals[0] in arrivals;
    }
  }

  /** The order in which streams are sorted, or maps are walked, leaves no trace in the result. */
  lemma AttachIsUnique(t: Topology, p: Plan, inv: Inventory, a: seq<Stream>, b: seq<Stream>)
    requires Loaded(inv) && PlanOf(t, p)
    requires Attached(p.streams, a, p.dot, t, inv) && Attached(p.streams, b, p.dot, t, inv)
    ensures a == b
  {
    hide Loaded, PlanOf, Home;
    var da, ia :| Maps(p.streams, t, da, ia) && AttachedBy(p.streams, a, p.dot, inv.cabinets, da, ia);
    var db, ib :| Maps(p.streams, t, db, ib) && AttachedBy(p.streams, b, p.dot, inv.cabinets, db, ib);
    MapsAreUnique(p.streams, t, da, ia, db, ib);
    hide Maps;
    forall k | 0 <= k < |a| ensures a[k] == b[k] {
      SourcesAre(t, p, inv, a, da, ia, k);
      SourcesAre(t, p, inv, b, da, ia, k);
      if a[k].tier.RegionalTier? {
        StrictUnique(a[k].sources, b[k].sources, Domain);
      }
    }
  }

  lemma MapsAreUnique(streams: seq<Stream>, t: Topology, da: map<string, string>, ia: map<string, nat>,
                      db: map<string, string>, ib: map<string, nat>)
    requires Maps(streams, t, da, ia) && Maps(streams, t, db, ib)
    ensures da == db && ia == ib
  {
    forall x ensures x in da <==> x in db {
      if x in da { assert Owns(t, da[x], x); }
      if x in db { assert Owns(t, db[x], x); }
    }
    forall x | x in da ensures da[x] == db[x] { assert Owns(t, da[x], x); }
    forall n ensures n in ia <==> n in ib {
      if n in ia { assert streams[ia[n]].name in ib; }
      if n in ib { assert streams[ib[n]].name in ia; }
    }
    forall n | n in ia ensures ia[n] == ib[n] {
      assert streams[ia[n]].name == n && streams[ib[n]].name == n;
    }
  }

  /** Each cabinet is a source of one regional stream, that of its partition, with its own filter. */
  lemma OneHome(t: Topology, p: Plan, inv: Inventory, after: seq<Stream>, c: Cabinet) returns (k: nat, d: string)
    requires Loaded(inv) && PlanOf(t, p) && AttachOk(p.streams, p.dot, t, inv)
    requires Attached(p.streams, after, p.dot, t, inv) && c in inv.cabinets
    ensures Owns(t, d, c.partition) && FilterFits(p.dot, t, d, c)
    ensures k < |after| && after[k].tier.RegionalTier? && after[k].name == PartitionStreamName(p.dot, d, c.partition)
    ensures multiset(after[k].sources)[Source("VIKASA_BUFFER", c.id, c.filter, "", "")] == 1
    ensures forall j, s ::
              0 <= j < |after| && after[j].tier.RegionalTier? && s in after[j].sources && s.domain == c.id ==>
              j == k && s == Source("VIKASA_BUFFER", c.id, c.filter, "", "")
  {
    hide PlanOf, FilterFits, PartitionStreamName;
    var districts, index :|
        Maps(p.streams, t, districts, index) && AttachedBy(p.streams, after, p.dot, inv.cabinets, districts, index);
    assert CabinetFits(p.streams, p.dot, t, c);
    d :| Owns(t, d, c.partition)
        && HasRegional(p.streams, PartitionStreamName(p.dot, d, c.partition)) && FilterFits(p.dot, t, d, c);
    k := index[PartitionStreamName(p.dot, d, c.partition)];
    assert Home(p.dot, districts, index, c) == Some(k);
    hide Maps, AttachedBy, Home, Attached, AttachOk, CabinetFits;
    SourcesAre(t, p, inv, after, districts, index, k);
    assert BufferSource(c) in after[k].sources;
    OnceIn(after[k].sources, BufferSource(c));
    forall j, s | 0 <= j < |after| && after[j].tier.RegionalTier? && s in after[j].sources && s.domain == c.id
      ensures j == k && s == BufferSource(c)
    {
      SourcesAre(t, p, inv, after, districts, index, j);
      var e :| e in inv.cabinets && Home(p.dot, districts, index, e) == Some(j) && s == BufferSource(e);
      SameId(inv, c, e);
    }
  }

  lemma SameId(inv: Inventory, c: Cabinet, e: Cabinet)
    requires Loaded(inv) && c in inv.cabinets && e in inv.cabinets && c.id == e.id
    ensures c == e
  {
    var i :| 0 <= i < |inv.cabinets| && inv.cabinets[i] == c;
    var j :| 0 <= j < |inv.cabinets| && inv.cabinets[j] == e;
  }

  lemma OnceIn(s: seq<Source>, x: Source)
    requires StrictBy(s, Domain) && x in s
    ensures multiset(s)[x] == 1
  {
    StrictIsDistinct(s, Domain);
    assert Distinct(s) by {
      forall i, j | 0 <= i < j < |s| ensures s[i] != s[j] { assert Domain(s[i]) != Domain(s[j]); }
    }
    CountOne(s, x);
    assert x in multiset(s);
  }

  /** What the stream pulls from a cabinet is what the cabinet's credential lets it speak. */
  lemma SameScope(t: Topology, p: Plan, inv: Inventory, after: seq<Stream>, c: Cabinet, f: B.Files, d: string, now: int)
    requires Loaded(inv) && PlanOf(t, p) && AttachOk(p.streams, p.dot, t, inv)
    requires Attached(p.streams, after, p.dot, t, inv) && c in inv.cabinets
    requires I.CabinetTrusted(f, c, d, now)
    ensures var perms := f.creds[B.CabinetPath(d, c.id)].value.permissions;
            forall j, s ::
              0 <= j < |after| && after[j].tier.RegionalTier? && s in after[j].sources && s.domain == c.id ==>
              perms == B.Permissions([s.filter], [], [s.filter])
  {
    var k, e := OneHome(t, p, inv, after, c);
  }
}

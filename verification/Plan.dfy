/** internal/plan/plan.go: compiling a topology into streams, sources and DNS records. */
module Plan {
  import opened Basics
  import opened Text
  import opened Naming
  import opened Sorting
  import opened Topology
  import A = Accounts

  datatype Tier = CentralTier | RegionalTier | DMZTier

  datatype Source = Source(name: string, domain: string, filter: string, transformSource: string, transformDest: string)

  datatype Stream = Stream(
    name: string,
    cluster: string,
    jsDomain: string,
    replicas: nat,
    maxAge: string,
    maxBytes: nat,
    duplicates: string,
    republishSource: string,
    republishDest: string,
    tier: Tier,
    sources: seq<Source>)

  datatype DNSRecord = DNSRecord(name: string, target: string)

  datatype Plan = Plan(dot: string, streams: seq<Stream>, dns: seq<DNSRecord>)

  /** One partition of the topology, with its stream name worked out once. */
  datatype Part = Part(district: string, id: string, cluster: string, streamName: string)

  const GIB: nat := 0x4000_0000
  const REPLICAS: nat := 3
  const ROOT_SPACE := "vikasa.>"

  // ---- what the plan of a topology is ----

  predicate Resolved(t: Topology, cluster: string)
  {
    cluster in t.cluster && t.cluster[cluster].jsDomain.Some?
  }

  function JSDomain(t: Topology, cluster: string): string
    requires Resolved(t, cluster)
  {
    t.cluster[cluster].jsDomain.value
  }

  predicate Placed(t: Topology, x: Part)
  {
    Resolved(t, x.cluster) && t.cluster[x.cluster].leafEndpoint.Some?
  }

  function PartOf(t: Topology, d: string, p: string): Part
    requires Owns(t, d, p) && t.district[d].partition[p].cluster.Some?
  {
    Part(d, p, t.district[d].partition[p].cluster.value, PartitionStreamName(t.dot, d, p))
  }

  ghost predicate Entry(t: Topology, x: Part)
  {
    Owns(t, x.district, x.id) && t.district[x.district].partition[x.id].cluster.Some?
        && x == PartOf(t, x.district, x.id)
  }

  predicate AllAssigned(t: Topology)
  {
    forall d <- t.district, p <- t.district[d].partition :: t.district[d].partition[p].cluster.Some?
  }

  function PartName(x: Part): string { x.streamName }

  /** The partitions in strict stream-name order. */
  ghost predicate PartsOf(t: Topology, parts: seq<Part>)
  {
    AllAssigned(t) && StrictBy(parts, PartName) && forall x :: x in parts <==> Entry(t, x)
  }

  predicate AllPlaced(t: Topology, parts: seq<Part>) { forall x <- parts :: Placed(t, x) }

  function RegionalStream(t: Topology, x: Part): Stream
    requires Placed(t, x)
  {
    Stream(x.streamName, x.cluster, JSDomain(t, x.cluster), REPLICAS, "6h", 50 * GIB, "", "", "", RegionalTier, [])
  }

  function PartSource(t: Topology, x: Part): Source
    requires Placed(t, x)
  {
    Source(x.streamName, JSDomain(t, x.cluster), "", "", "")
  }

  predicate CentralReady(t: Topology)
  {
    t.central.Some? && t.central.value.cluster.Some? && Resolved(t, t.central.value.cluster.value)
  }

  function CentralDomain(t: Topology): string
    requires CentralReady(t)
  {
    JSDomain(t, t.central.value.cluster.value)
  }

  function OrDefault(r: Option<nat>): nat { if r.Some? then r.value else REPLICAS }

  function ShardName(t: Topology, x: Part): string { CentralShardStreamName(t.dot, x.district, x.id) }

  function Shard(t: Topology, x: Part): Stream
    requires CentralReady(t) && Placed(t, x)
  {
    Stream(ShardName(t, x), t.central.value.cluster.value, CentralDomain(t), OrDefault(t.central.value.replicas),
      "15m", 20 * GIB, "", "", "", CentralTier, [PartSource(t, x)])
  }

  function Regionals(t: Topology, parts: seq<Part>): (r: seq<Stream>)
    requires AllPlaced(t, parts)
    ensures |r| == |parts|
  {
    seq(|parts|, i requires 0 <= i < |parts| => RegionalStream(t, parts[i]))
  }

  function Shards(t: Topology, parts: seq<Part>): (r: seq<Stream>)
    requires CentralReady(t) && AllPlaced(t, parts)
    ensures |r| == |parts|
  {
    seq(|parts|, i requires 0 <= i < |parts| => Shard(t, parts[i]))
  }

  // ---- DMZ ----

  predicate HasDmz(t: Topology) { t.dmz.Some? && t.dmz.value.cluster.Some? }

  predicate DmzReady(t: Topology) { HasDmz(t) && Resolved(t, t.dmz.value.cluster.value) }

  predicate Fanned(s: Share) { s.from.Some? && s.public.Some? }

  predicate DrawsFrom(t: Topology, from: string, d: string)
  {
    d in t.district && UnderPrefix(from, A.Space(t, d))
  }

  /** The shards of one district, in stream-name order. */
  function ShardNames(t: Topology, parts: seq<Part>, d: string): seq<string>
  {
    if parts == [] then []
    else
      var x := parts[|parts| - 1];
      ShardNames(t, parts[..|parts| - 1], d) + (if x.district == d then [ShardName(t, x)] else [])
  }

  function ShareSource(t: Topology, s: Share, shard: string): Source
    requires CentralReady(t) && Fanned(s)
  {
    Source(shard, CentralDomain(t), "", s.from.value, s.public.value)
  }

  function Fan(t: Topology, s: Share, shards: seq<string>): (r: seq<Source>)
    requires CentralReady(t) && Fanned(s)
    ensures |r| == |shards|
  {
    seq(|shards|, i requires 0 <= i < |shards| => ShareSource(t, s, shards[i]))
  }

  /** Share by share, `choice` naming the district each share draws from. */
  function DmzSources(t: Topology, parts: seq<Part>, shares: seq<Share>, choice: seq<string>): seq<Source>
    requires CentralReady(t) && |choice| == |shares|
  {
    if shares == [] then []
    else
      var n := |shares| - 1;
      DmzSources(t, parts, shares[..n], choice[..n])
        + (if Fanned(shares[n]) then Fan(t, shares[n], ShardNames(t, parts, choice[n])) else [])
  }

  ghost predicate ChoiceOf(t: Topology, shares: seq<Share>, choice: seq<string>)
  {
    |choice| == |shares| && forall i :: 0 <= i < |shares| && Fanned(shares[i]) ==>
        DrawsFrom(t, shares[i].from.value, choice[i])
  }

  function DmzStream(t: Topology, sources: seq<Source>): Stream
    requires DmzReady(t)
  {
    var dmz := t.dmz.value;
    Stream(DMZStreamName(t.dot), dmz.cluster.value, JSDomain(t, dmz.cluster.value), OrDefault(dmz.replicas),
      "1h", 10 * GIB, "5m", ROOT_SPACE, ROOT_SPACE, DMZTier, sources)
  }

  ghost predicate DmzOf(t: Topology, parts: seq<Part>, dmz: seq<Stream>)
    requires CentralReady(t)
  {
    if HasDmz(t) then
      DmzReady(t) && exists choice :: DmzFrom(t, parts, choice, dmz)
    else
      dmz == []
  }

  ghost predicate DmzFrom(t: Topology, parts: seq<Part>, choice: seq<string>, dmz: seq<Stream>)
    requires CentralReady(t) && DmzReady(t)
  {
    && ChoiceOf(t, t.dmz.value.shares, choice)
    && dmz == [DmzStream(t, DmzSources(t, parts, t.dmz.value.shares, choice))]
  }

  // ---- DNS ----

  function LeafRecord(t: Topology, x: Part): DNSRecord
    requires Placed(t, x)
  {
    DNSRecord(LeafDNSName(t.dot, x.id), t.cluster[x.cluster].leafEndpoint.value)
  }

  function Leaves(t: Topology, parts: seq<Part>): (r: seq<DNSRecord>)
    requires AllPlaced(t, parts)
    ensures |r| == |parts|
  {
    seq(|parts|, i requires 0 <= i < |parts| => LeafRecord(t, parts[i]))
  }

  function RecordName(r: DNSRecord): string { r.name }

  /** One record per partition, in strict name order. */
  ghost predicate DnsOf(t: Topology, parts: seq<Part>, dns: seq<DNSRecord>)
    requires AllPlaced(t, parts)
  {
    StrictBy(dns, RecordName) && multiset(dns) == multiset(Leaves(t, parts))
  }

  ghost predicate PlanFrom(t: Topology, parts: seq<Part>, dmz: seq<Stream>, p: Plan)
  {
    && CentralReady(t) && PartsOf(t, parts) && AllPlaced(t, parts) && DmzOf(t, parts, dmz)
    && p.dot == t.dot && DnsOf(t, parts, p.dns)
    && p.streams == Shards(t, parts) + Regionals(t, parts) + dmz
  }

  ghost predicate PlanOf(t: Topology, p: Plan) { exists parts, dmz :: PlanFrom(t, parts, dmz, p) }

  // ---- when a topology has a plan ----

  ghost predicate NamesApart(t: Topology)
  {
    forall x, y :: Entry(t, x) && Entry(t, y) && x.streamName == y.streamName ==> x == y
  }

  ghost predicate LeavesApart(t: Topology)
  {
    forall x, y :: Entry(t, x) && Entry(t, y) && LeafDNSName(t.dot, x.id) == LeafDNSName(t.dot, y.id) ==> x == y
  }

  ghost predicate SharesMatched(t: Topology)
  {
    forall s <- A.Shares(t) :: Fanned(s) ==> exists d :: DrawsFrom(t, s.from.value, d)
  }

  ghost predicate Buildable(t: Topology)
  {
    && CentralReady(t) && AllAssigned(t)
    && (forall x :: Entry(t, x) ==> Placed(t, x))
    && NamesApart(t) && LeavesApart(t)
    && (HasDmz(t) ==> DmzReady(t) && SharesMatched(t))
  }

  datatype BuildError =
    | NoCentralCluster
    | NoPartitionCluster(district: string, part: string)
    | StreamCollision(a: Part, b: Part)
    | ClusterUnusable(x: Part)
    | LeafCollision(a: Part, b: Part)
    | CentralUnresolved
    | DmzUnresolved
    | UnmatchedShare(from: string)

  /** What an error says is wrong. */
  ghost predicate Explains(t: Topology, e: BuildError)
  {
    match e
    case NoCentralCluster => t.central.None? || t.central.value.cluster.None?
    case NoPartitionCluster(d, p) => Owns(t, d, p) && t.district[d].partition[p].cluster.None?
    case StreamCollision(a, b) => Entry(t, a) && Entry(t, b) && a != b && a.streamName == b.streamName
    case ClusterUnusable(x) => Entry(t, x) && !Placed(t, x)
    case LeafCollision(a, b) => Entry(t, a) && Entry(t, b)
        && a != b && LeafDNSName(t.dot, a.id) == LeafDNSName(t.dot, b.id)
    case CentralUnresolved => !CentralReady(t)
    case DmzUnresolved => HasDmz(t) && !DmzReady(t)
    case UnmatchedShare(from) =>
      HasDmz(t) && (exists s <- A.Shares(t) :: Fanned(s) && s.from.value == from) && forall d :: !DrawsFrom(t, from, d)
  }

  lemma ExplainsIsFatal(t: Topology, e: BuildError)
    requires Explains(t, e)
    ensures !Buildable(t)
  {
    if e.UnmatchedShare? {
      var s :| s in A.Shares(t) && Fanned(s) && s.from.value == e.from;
      assert s in A.Shares(t) && Fanned(s);
      assert !SharesMatched(t);
    }
  }

  // ---- order ----

  function Wave(t: Tier): nat
  {
    match t
    case CentralTier => 0
    case RegionalTier => 1
    case DMZTier => 2
  }

  /** One string key for the (wave, name) order of the final list. */
  function Rank(s: Stream): string { ['0' + (Wave(s.tier) as char)] + s.name }

  lemma RankOrder(a: Stream, b: Stream)
    ensures Less(Rank(a), Rank(b)) <==>
              Wave(a.tier) < Wave(b.tier) || (Wave(a.tier) == Wave(b.tier) && Less(a.name, b.name))
  {
    assert Rank(a)[1..] == a.name && Rank(b)[1..] == b.name;
  }

  /** Shards stand in the same order as the partitions they serve. */
  lemma ShardOrder(t: Topology, x: Part, y: Part)
    requires Entry(t, x) && Entry(t, y)
    ensures Less(ShardName(t, x), ShardName(t, y)) <==> Less(x.streamName, y.streamName)
  {
    var head := "VIKASA_" + Sanitize(t.dot);
    var sx, sy := PartitionSuffix(x.district, x.id), PartitionSuffix(y.district, y.id);
    Reassociate(head, sx);
    Reassociate(head, sy);
    LessPrefix(head + "_", sx, sy);
    LessPrefix(head + "_CENTRAL_", sx, sy);
  }

  lemma Reassociate(head: string, suffix: string)
    ensures head + "_" + suffix == (head + "_") + suffix
    ensures head + "_CENTRAL_" + suffix == (head + "_CENTRAL_") + suffix
  {
  }

  lemma StreamsInOrder(t: Topology, parts: seq<Part>, dmz: seq<Stream>)
    requires CentralReady(t) && PartsOf(t, parts) && AllPlaced(t, parts) && DmzOf(t, parts, dmz)
    ensures StrictBy(Shards(t, parts) + Regionals(t, parts) + dmz, Rank)
  {
    hide Rank, Less;
    var all := Shards(t, parts) + Regionals(t, parts) + dmz;
    var n := |parts|;
    forall i, j | 0 <= i < j < |all| ensures Less(Rank(all[i]), Rank(all[j])) {
      RankOrder(all[i], all[j]);
      if j < n {
        assert parts[i] in parts && parts[j] in parts;
        ShardOrder(t, parts[i], parts[j]);
      } else if n <= i && j < 2 * n {
        assert Less(PartName(parts[i - n]), PartName(parts[j - n]));
      }
    }
  }

  // ---- Build ----

  method Build(t: Topology) returns (r: Result<Plan, BuildError>)
    ensures r.Success? <==> Buildable(t)
    ensures r.Success? ==> PlanOf(t, r.value)
    ensures r.Failure? ==> Explains(t, r.error)
  {
    hide Explains, Buildable;
    r := TryBuild(t);
    if r.Failure? {
      ExplainsIsFatal(t, r.error);
    } else {
      PlanIsBuildable(t, r.value);
    }
  }

  lemma PlanIsBuildable(t: Topology, p: Plan)
    requires PlanOf(t, p)
    ensures Buildable(t)
  {
    var parts, dmz :| PlanFrom(t, parts, dmz, p);
    StrictIsDistinct(parts, PartName);
    forall x, y | Entry(t, x) && Entry(t, y) && x.streamName == y.streamName ensures x == y {
      assert x in parts && y in parts;
      var i :| 0 <= i < |parts| && parts[i] == x;
      var j :| 0 <= j < |parts| && parts[j] == y;
      assert PartName(parts[i]) == PartName(parts[j]);
    }
    LeavesAreApart(t, parts, p.dns);
    if HasDmz(t) {
      var choice :| DmzFrom(t, parts, choice, dmz);
      var shares := t.dmz.value.shares;
      forall s | s in shares && Fanned(s) ensures exists d :: DrawsFrom(t, s.from.value, d) {
        var i :| 0 <= i < |shares| && shares[i] == s;
        assert DrawsFrom(t, s.from.value, choice[i]);
      }
    }
  }

  lemma LeavesAreApart(t: Topology, parts: seq<Part>, dns: seq<DNSRecord>)
    requires PartsOf(t, parts) && AllPlaced(t, parts) && DnsOf(t, parts, dns)
    ensures LeavesApart(t)
  {
    StrictIsDistinct(dns, RecordName);
    var leaves := Leaves(t, parts);
    PermutationDistinct(dns, leaves, RecordName);
    forall x, y | Entry(t, x) && Entry(t, y) && LeafDNSName(t.dot, x.id) == LeafDNSName(t.dot, y.id) ensures x == y {
      assert x in parts && y in parts;
      var i :| 0 <= i < |parts| && parts[i] == x;
      var j :| 0 <= j < |parts| && parts[j] == y;
      assert RecordName(leaves[i]) == RecordName(leaves[j]);
    }
  }

  method TryBuild(t: Topology) returns (r: Result<Plan, BuildError>)
    ensures r.Success? ==> PlanOf(t, r.value)
    ensures r.Failure? ==> Explains(t, r.error)
  {
    if t.central.None? || t.central.value.cluster.None? {
      return Failure(NoCentralCluster);
    }
    var parts :- CollectParts(t);
    var o, regional, sources, dns := BuildRegional(t, parts);
    if o.Fail? {
      return Failure(o.error);
    }
    if !Resolved(t, t.central.value.cluster.value) {
      return Failure(CentralUnresolved);
    }
    var shards, byDistrict := BuildCentralShards(t, parts, sources);
    var dmz :- BuildDMZ(t, parts, byDistrict);
    assert regional == Regionals(t, parts);
    var all := shards + regional + dmz;
    var sorted := SortSlice(all, Rank);
    StreamsInOrder(t, parts, dmz);
    AlreadySorted(all, sorted);
    var p := Plan(t.dot, sorted, dns);
    assert PlanFrom(t, parts, dmz, p);
    return Success(p);
  }

  /** The list is in its final order before the last sort, so the sort changes nothing. */
  lemma AlreadySorted(all: seq<Stream>, sorted: seq<Stream>)
    requires StrictBy(all, Rank) && SortedBy(sorted, Rank) && multiset(sorted) == multiset(all)
    ensures sorted == all
  {
    StrictIsDistinct(all, Rank);
    PermutationDistinct(all, sorted, Rank);
    SortedIsStrict(sorted, Rank);
    SameMembers(sorted, all);
    StrictUnique(sorted, all, Rank);
  }

  // ---- the regional pass ----

  ghost predicate Gathered(t: Topology, parts: seq<Part>, todo: set<string>)
  {
    && Distinct(parts)
    && (forall x <- parts :: Entry(t, x))
    && forall x :: Entry(t, x) && x.district !in todo ==> x in parts
  }

  method CollectParts(t: Topology) returns (r: Result<seq<Part>, BuildError>)
    ensures r.Success? ==> PartsOf(t, r.value)
    ensures r.Failure? ==> Explains(t, r.error)
  {
    var parts: seq<Part> := [];
    var districts := t.district.Keys;
    while districts != {}
      invariant districts <= t.district.Keys
      invariant Gathered(t, parts, districts)
      invariant forall x <- parts :: x.district !in districts
      invariant forall d, p :: Owns(t, d, p) && d !in districts ==> t.district[d].partition[p].cluster.Some?
    {
      var d :| d in districts;
      parts :- CollectDistrict(t, d, parts, districts);
      districts := districts - {d};
    }
    assert AllAssigned(t) by {
      forall d, p | d in t.district && p in t.district[d].partition ensures t.district[d].partition[p].cluster.Some? {
        assert Owns(t, d, p);
      }
    }
    var sorted := SortSlice(parts, PartName);
    PermutationKeepsDistinct(parts, sorted);
    SameMembers(parts, sorted);
    var i := 1;
    while i < |sorted|
      invariant 1 <= i
      invariant forall j :: 1 <= j < i && j < |sorted| ==> sorted[j - 1].streamName != sorted[j].streamName
    {
      if sorted[i].streamName == sorted[i - 1].streamName {
        assert sorted[i] in parts && sorted[i - 1] in parts;
        return Failure(StreamCollision(sorted[i - 1], sorted[i]));
      }
      i := i + 1;
    }
    NeighboursDiffer(sorted);
    return Success(sorted);
  }

  /** In a sorted list it is enough that neighbours differ. */
  lemma NeighboursDiffer(s: seq<Part>)
    requires SortedBy(s, PartName)
    requires forall j :: 1 <= j < |s| ==> s[j - 1].streamName != s[j].streamName
    ensures StrictBy(s, PartName)
  {
    forall i, j | 0 <= i < j < |s| ensures PartName(s[i]) != PartName(s[j]) {
      LessTotal(s[i].streamName, s[i + 1].streamName);
      assert !Less(PartName(s[i + 1]), PartName(s[i]));
      if i + 1 < j {
        assert !Less(PartName(s[j]), PartName(s[i + 1]));
      }
    }
    SortedIsStrict(s, PartName);
  }

  method CollectDistrict(t: Topology, d: string, before: seq<Part>, todo: set<string>)
    returns (r: Result<seq<Part>, BuildError>)
    requires d in t.district && d in todo
    requires Gathered(t, before, todo) && forall x <- before :: x.district !in todo
    ensures r.Success? ==>
      && Gathered(t, r.value, todo - {d}) && (forall x <- r.value :: x.district !in todo - {d})
      && forall p <- t.district[d].partition :: t.district[d].partition[p].cluster.Some?
    ensures r.Failure? ==> Explains(t, r.error)
  {
    var parts := before;
    var ids := t.district[d].partition.Keys;
    while ids != {}
      invariant ids <= t.district[d].partition.Keys
      invariant Distinct(parts)
      invariant forall x <- parts :: Entry(t, x) && (x in before || (x.district == d && x.id !in ids))
      invariant forall x <- before :: x in parts
      invariant forall p <- t.district[d].partition :: p !in ids ==>
        t.district[d].partition[p].cluster.Some? && PartOf(t, d, p) in parts
    {
      var p :| p in ids;
      assert Owns(t, d, p);
      if t.district[d].partition[p].cluster.None? {
        return Failure(NoPartitionCluster(d, p));
      }
      parts := parts + [PartOf(t, d, p)];
      ids := ids - {p};
    }
    forall x | Entry(t, x) && x.district !in todo - {d} ensures x in parts {
      if x.district == d { assert x == PartOf(t, d, x.id); }
    }
    return Success(parts);
  }

  method BuildRegional(t: Topology, parts: seq<Part>)
    returns (o: Outcome<BuildError>, streams: seq<Stream>, sources: seq<Source>, dns: seq<DNSRecord>)
    requires PartsOf(t, parts)
    ensures o.Pass? ==>
      && AllPlaced(t, parts) && streams == Regionals(t, parts)
      && |sources| == |parts| && (forall i :: 0 <= i < |parts| ==> sources[i] == PartSource(t, parts[i]))
      && DnsOf(t, parts, dns)
    ensures o.Fail? ==> Explains(t, o.error)
  {
    hide RegionalStream, PartSource, LeafDNSName, Less, PartOf, StrictBy, Owns, LeavesSoFar;
    streams, sources, dns := [], [], [];
    var dnsSeen: map<string, Part> := map[];
    NoLeavesYet(t, parts);
    for i := 0 to |parts|
      invariant |streams| == |sources| == i
      invariant forall k :: 0 <= k < i ==> Placed(t, parts[k])
      invariant forall k :: 0 <= k < i ==>
        streams[k] == RegionalStream(t, parts[k]) && sources[k] == PartSource(t, parts[k])
      invariant LeavesSoFar(t, parts, i, dns, dnsSeen)
    {
      var x := parts[i];
      assert Entry(t, x);
      if !Placed(t, x) {
        o := Fail(ClusterUnusable(x));
        return;
      }
      streams := streams + [RegionalStream(t, x)];
      sources := sources + [PartSource(t, x)];
      var leaf := LeafRecord(t, x);
      LeavesNext(t, parts, i, dns, dnsSeen);
      if leaf.name in dnsSeen {
        o := Fail(LeafCollision(dnsSeen[leaf.name], x));
        return;
      }
      dnsSeen := dnsSeen[leaf.name := x];
      dns := dns + [leaf];
    }
    o := Pass;
    LeavesAll(t, parts, dns, dnsSeen);
    dns := SortDns(t, parts, dns);
  }

  method SortDns(t: Topology, parts: seq<Part>, leaves: seq<DNSRecord>) returns (dns: seq<DNSRecord>)
    requires AllPlaced(t, parts) && |leaves| == |parts| && forall k :: 0 <= k < |parts| ==>
        leaves[k] == LeafRecord(t, parts[k])
    requires DistinctKeys(leaves, RecordName)
    ensures DnsOf(t, parts, dns)
  {
    assert leaves == Leaves(t, parts);
    dns := SortSlice(leaves, RecordName);
    PermutationDistinct(leaves, dns, RecordName);
    SortedIsStrict(dns, RecordName);
  }

  /** The records of the first i partitions, and whose each name is. */
  ghost predicate LeavesSoFar(t: Topology, parts: seq<Part>, i: nat, dns: seq<DNSRecord>, seen: map<string, Part>)
  {
    && |dns| == i <= |parts|
    && (forall k :: 0 <= k < i ==> Placed(t, parts[k]) && dns[k] == LeafRecord(t, parts[k]) && dns[k].name in seen)
    && (forall n <- seen :: seen[n] in parts[..i] && LeafDNSName(t.dot, seen[n].id) == n)
    && DistinctKeys(dns, RecordName)
  }

  lemma NoLeavesYet(t: Topology, parts: seq<Part>)
    ensures LeavesSoFar(t, parts, 0, [], map[])
  {
  }

  lemma LeavesNext(t: Topology, parts: seq<Part>, i: nat, dns: seq<DNSRecord>, seen: map<string, Part>)
    requires PartsOf(t, parts) && LeavesSoFar(t, parts, i, dns, seen) && i < |parts| && Placed(t, parts[i])
    ensures var leaf := LeafRecord(t, parts[i]);
            if leaf.name in seen then Explains(t, LeafCollision(seen[leaf.name], parts[i]))
            else LeavesSoFar(t, parts, i + 1, dns + [leaf], seen[leaf.name := parts[i]])
  {
    hide PartOf, LeafDNSName, Owns, StrictBy, Less;
    var leaf := LeafRecord(t, parts[i]);
    assert parts[..i + 1] == parts[..i] + [parts[i]];
    if leaf.name in seen { EarlierDiffers(t, parts, i, seen[leaf.name]); }
  }

  lemma LeavesAll(t: Topology, parts: seq<Part>, dns: seq<DNSRecord>, seen: map<string, Part>)
    requires LeavesSoFar(t, parts, |parts|, dns, seen)
    ensures AllPlaced(t, parts) && |dns| == |parts| && DistinctKeys(dns, RecordName)
    ensures forall k :: 0 <= k < |parts| ==> dns[k] == LeafRecord(t, parts[k])
  {
    hide LeafRecord, Placed;
  }

  lemma EarlierDiffers(t: Topology, parts: seq<Part>, i: nat, y: Part)
    requires PartsOf(t, parts) && i < |parts| && y in parts[..i]
    ensures Entry(t, y) && y != parts[i]
  {
    StrictIsDistinct(parts, PartName);
    var j :| 0 <= j < i && parts[j] == y;
    assert PartName(parts[j]) != PartName(parts[i]);
  }

  // ---- the central shards ----

  ghost predicate ByDistrict(t: Topology, parts: seq<Part>, idx: map<string, seq<string>>)
  {
    forall d :: ShardNames(t, parts, d) == if d in idx then idx[d] else []
  }

  function WithShard(idx: map<string, seq<string>>, d: string, name: string): map<string, seq<string>>
  {
    idx[d := (if d in idx then idx[d] else []) + [name]]
  }

  lemma NoShardsYet(t: Topology)
    ensures ByDistrict(t, [], map[])
  {
  }

  lemma WithShardStep(t: Topology, parts: seq<Part>, i: nat, idx: map<string, seq<string>>)
    requires i < |parts| && ByDistrict(t, parts[..i], idx)
    ensures ByDistrict(t, parts[..i + 1], WithShard(idx, parts[i].district, ShardName(t, parts[i])))
  {
    hide ShardName;
    assert parts[..i + 1][..i] == parts[..i];
  }

  method BuildCentralShards(t: Topology, parts: seq<Part>, sources: seq<Source>)
    returns (shards: seq<Stream>, byDistrict: map<string, seq<string>>)
    requires CentralReady(t) && AllPlaced(t, parts)
    requires |sources| == |parts| && forall i :: 0 <= i < |parts| ==> sources[i] == PartSource(t, parts[i])
    ensures shards == Shards(t, parts) && ByDistrict(t, parts, byDistrict)
  {
    hide PartSource, CentralShardStreamName, CentralDomain, ByDistrict, WithShard;
    NoShardsYet(t);
    var central := t.central.value;
    var replicas := OrDefault(central.replicas);
    shards, byDistrict := [], map[];
    for i := 0 to |parts|
      invariant |shards| == i && forall k :: 0 <= k < i ==> shards[k] == Shard(t, parts[k])
      invariant ByDistrict(t, parts[..i], byDistrict)
    {
      var x := parts[i];
      var name := ShardName(t, x);
      shards := shards + [Stream(name, central.cluster.value, CentralDomain(t), replicas, "15m", 20 * GIB, "", "", "",
                                 CentralTier, [sources[i]])];
      WithShardStep(t, parts, i, byDistrict);
      byDistrict := WithShard(byDistrict, x.district, name);
    }
    assert parts[..|parts|] == parts;
  }

  // ---- the DMZ stream ----

  method DistrictOf(t: Topology, from: string) returns (r: Option<string>)
    ensures r.Some? ==> DrawsFrom(t, from, r.value)
    ensures r.None? ==> forall d :: !DrawsFrom(t, from, d)
  {
    var todo := t.district.Keys;
    while todo != {}
      invariant forall d :: d in t.district && d !in todo ==> !DrawsFrom(t, from, d)
    {
      var d :| d in todo;
      todo := todo - {d};
      if d in t.district && UnderPrefix(from, A.Space(t, d)) {
        return Some(d);
      }
    }
    return None;
  }

  method BuildDMZ(t: Topology, parts: seq<Part>, byDistrict: map<string, seq<string>>)
    returns (r: Result<seq<Stream>, BuildError>)
    requires CentralReady(t) && ByDistrict(t, parts, byDistrict)
    ensures r.Success? ==> DmzOf(t, parts, r.value)
    ensures r.Failure? ==> Explains(t, r.error)
  {
    if !HasDmz(t) {
      return Success([]);
    }
    if !DmzReady(t) {
      return Failure(DmzUnresolved);
    }
    var shares := t.dmz.value.shares;
    var sources: seq<Source>, choice: seq<string> := [], [];
    for n := 0 to |shares|
      invariant ChoiceOf(t, shares[..n], choice)
      invariant sources == DmzSources(t, parts, shares[..n], choice)
    {
      var s := shares[n];
      var d := "";
      var more: seq<Source> := [];
      if Fanned(s) {
        var found := DistrictOf(t, s.from.value);
        if found.None? {
          assert s in A.Shares(t);
          return Failure(UnmatchedShare(s.from.value));
        }
        d := found.value;
        more := FanOut(t, s, if d in byDistrict then byDistrict[d] else []);
      }
      assert shares[..n + 1][..n] == shares[..n] && (choice + [d])[..n] == choice;
      sources := sources + more;
      choice := choice + [d];
    }
    assert shares[..|shares|] == shares;
    var dmz := [DmzStream(t, sources)];
    assert DmzFrom(t, parts, choice, dmz);
    return Success(dmz);
  }

  method FanOut(t: Topology, s: Share, shards: seq<string>) returns (sources: seq<Source>)
    requires CentralReady(t) && Fanned(s)
    ensures sources == Fan(t, s, shards)
  {
    sources := [];
    for i := 0 to |shards|
      invariant |sources| == i && forall k :: 0 <= k < i ==> sources[k] == ShareSource(t, s, shards[k])
    {
      sources := sources + [Source(shards[i], CentralDomain(t), "", s.from.value, s.public.value)];
    }
  }

  // ---- what every plan has ----

  lemma StreamCount(t: Topology, parts: seq<Part>, dmz: seq<Stream>, p: Plan)
    requires PlanFrom(t, parts, dmz, p)
    ensures |p.streams| == 2 * |parts| + |dmz|
  {
  }

  lemma StreamAt(t: Topology, parts: seq<Part>, dmz: seq<Stream>, p: Plan, k: nat)
    requires PlanFrom(t, parts, dmz, p) && k < |p.streams|
    ensures |p.streams| == 2 * |parts| + |dmz|
    ensures k < |parts| ==> p.streams[k] == Shard(t, parts[k]) && parts[k] in parts
    ensures |parts| <= k < 2 * |parts| ==>
              p.streams[k] == RegionalStream(t, parts[k - |parts|]) && parts[k - |parts|] in parts
    ensures 2 * |parts| <= k ==> p.streams[k] == dmz[k - 2 * |parts|]
  {
    hide Shard, RegionalStream, PartsOf;
  }

  /** The streams come in strict (wave, name) order. */
  lemma WavesInOrder(t: Topology, p: Plan)
    requires PlanOf(t, p)
    ensures StrictBy(p.streams, Rank)
  {
    var parts, dmz :| PlanFrom(t, parts, dmz, p);
    StreamsInOrder(t, parts, dmz);
  }

  /** Every partition has one regional stream and one central shard that draws from it alone. */
  lemma EveryPartitionOnce(t: Topology, p: Plan, x: Part) returns (i: nat, j: nat)
    requires PlanOf(t, p) && Entry(t, x)
    ensures Placed(t, x) && CentralReady(t)
    ensures i < |p.streams| && p.streams[i] == RegionalStream(t, x)
    ensures j < |p.streams| && p.streams[j] == Shard(t, x)
    ensures forall k :: 0 <= k < |p.streams| && p.streams[k].tier.RegionalTier? && p.streams[k].name == x.streamName ==>
              k == i
    ensures forall k, s :: 0 <= k < |p.streams| && p.streams[k].tier.CentralTier? && s in p.streams[k].sources ==>
              (s.name == x.streamName ==> k == j)
  {
    hide PartitionStreamName, CentralShardStreamName, Less, JSDomain;
    var parts, dmz :| PlanFrom(t, parts, dmz, p);
    StrictIsDistinct(parts, PartName);
    assert x in parts;
    j :| 0 <= j < |parts| && parts[j] == x;
    i := |parts| + j;
    assert forall k :: 0 <= k < |parts| && PartName(parts[k]) == PartName(x) ==> k == j;
    PartitionsOnly(t, parts, dmz, p, x, j);
  }

  lemma PartitionsOnly(t: Topology, parts: seq<Part>, dmz: seq<Stream>, p: Plan, x: Part, j: nat)
    requires PlanFrom(t, parts, dmz, p) && j < |parts| && parts[j] == x
    requires forall k :: 0 <= k < |parts| && PartName(parts[k]) == PartName(x) ==> k == j
    ensures |p.streams| >= 2 * |parts| && p.streams[j] == Shard(t, x) && p.streams[|parts| + j] == RegionalStream(t, x)
    ensures forall k :: 0 <= k < |p.streams| && p.streams[k].tier.RegionalTier? && p.streams[k].name == x.streamName ==>
              k == |parts| + j
    ensures forall k, s :: 0 <= k < |p.streams| && p.streams[k].tier.CentralTier? && s in p.streams[k].sources ==>
              (s.name == x.streamName ==> k == j)
  {
    assert AllPlaced(t, parts) && CentralReady(t) && forall z <- dmz :: z.tier.DMZTier?;
    hide PlanFrom, JSDomain, ShardName, DmzStream, DmzOf, PartsOf;
    StreamCount(t, parts, dmz, p);
    StreamAt(t, parts, dmz, p, j);
    StreamAt(t, parts, dmz, p, |parts| + j);
    forall k | 0 <= k < |p.streams|
      ensures p.streams[k].tier.RegionalTier? && p.streams[k].name == x.streamName ==> k == |parts| + j
      ensures p.streams[k].tier.CentralTier? ==>
                forall s :: s in p.streams[k].sources && s.name == x.streamName ==> k == j
    {
      StreamAt(t, parts, dmz, p, k);
      if k < |parts| {
        assert forall s :: s in p.streams[k].sources ==> s == PartSource(t, parts[k]);
        assert PartSource(t, parts[k]).name == PartName(parts[k]);
      }
    }
  }

  ghost predicate IsRegional(t: Topology, s: Stream)
  {
    exists x :: Entry(t, x) && Placed(t, x) && s == RegionalStream(t, x)
  }

  ghost predicate IsShard(t: Topology, s: Stream)
  {
    CentralReady(t) && exists x :: Entry(t, x) && Placed(t, x) && s == Shard(t, x)
  }

  /** Nothing else is planned: every stream is a partition's, a partition's shard, or the DMZ's. */
  lemma NothingElse(t: Topology, p: Plan, s: Stream)
    requires PlanOf(t, p) && s in p.streams
    ensures s.tier.RegionalTier? ==> IsRegional(t, s)
    ensures s.tier.CentralTier? ==> IsShard(t, s)
    ensures s.tier.DMZTier? ==> DmzReady(t) && s == DmzStream(t, s.sources)
  {
    var parts, dmz :| PlanFrom(t, parts, dmz, p);
    var k :| 0 <= k < |p.streams| && p.streams[k] == s;
    StreamAt(t, parts, dmz, p, k);
    assert CentralReady(t) && AllPlaced(t, parts) && DmzOf(t, parts, dmz) && forall x <- parts :: Entry(t, x);
    hide PlanFrom, PlanOf, Entry, JSDomain, ShardName, PartSource, DmzOf;
    if k < |parts| {
      assert IsShard(t, s);
    } else if k < 2 * |parts| {
      assert IsRegional(t, s);
    } else {
      DmzAlone(t, parts, dmz, s);
    }
  }

  lemma DmzAlone(t: Topology, parts: seq<Part>, dmz: seq<Stream>, s: Stream)
    requires CentralReady(t) && DmzOf(t, parts, dmz) && s in dmz
    ensures DmzReady(t) && dmz == [DmzStream(t, s.sources)]
  {
    var choice :| DmzFrom(t, parts, choice, dmz);
    assert dmz[0] == s;
  }

  // ---- which district a share draws from ----

  /** No district's space lies inside another's. */
  ghost predicate SpacesApart(t: Topology)
  {
    forall d, e :: d in t.district && e in t.district && d != e ==> !UnderPrefix(A.Space(t, e), A.Space(t, d))
  }

  ghost predicate OneDistrict(t: Topology, from: string)
  {
    forall d, e :: DrawsFrom(t, from, d) && DrawsFrom(t, from, e) ==> d == e
  }

  lemma SpaceShape(t: Topology, d: string)
    requires Validate(t) && d in t.district
    ensures var s := A.Space(t, d); ValidSubjectString(s) && |s| >= 2 && s == s[..|s| - 2] + ".>" && UnderPrefix(s, s)
  {
    var s := A.Space(t, d);
    assert ValidDistrict(t.dot, d, t.district[d]);
    if t.district[d].subjectPrefix.None? {
      DefaultSpaceIsValid(t.dot, d);
    }
  }

  lemma DefaultSpaceIsValid(dot: string, d: string)
    requires Token(dot) && Token(d)
    ensures ValidSubjectString("vikasa." + dot + "." + d + ".>")
    ensures var s := "vikasa." + dot + "." + d + ".>"; s[|s| - 2..] == ".>"
  {
    var tokens := ["vikasa", dot, d, ">"];
    assert LiteralToken(dot) && LiteralToken(d) && LiteralToken("vikasa");
    assert forall i :: 0 <= i < |tokens| ==> ValidTokenAt(tokens, i) && '.' !in tokens[i];
    ValidSubjectRoundTrip(tokens);
    FourTokens("vikasa", dot, d, ">");
    assert "vikasa" + "." + dot + "." + d + "." + ">" == "vikasa." + dot + "." + d + ".>";
  }

  lemma FourTokens(a: string, b: string, c: string, e: string)
    ensures Join([a, b, c, e], '.') == a + "." + b + "." + c + "." + e
  {
    assert [a, b, c, e][1..] == [b, c, e] && [b, c, e][1..] == [c, e] && [c, e][1..] == [e];
    assert Join([c, e], '.') == c + "." + e;
    assert Join([b, c, e], '.') == b + "." + (c + "." + e);
  }

  /** Disjoint spaces are exactly what makes the choice of district independent of map order. */
  lemma AtMostOneDistrict(t: Topology)
    requires Validate(t)
    ensures SpacesApart(t) <==> forall from :: ValidSubjectString(from) ==> OneDistrict(t, from)
  {
    if SpacesApart(t) {
      forall from ensures OneDistrict(t, from) {
        ApartMeansOne(t, from);
      }
    }
    if forall from :: ValidSubjectString(from) ==> OneDistrict(t, from) {
      forall d, e | d in t.district && e in t.district && UnderPrefix(A.Space(t, e), A.Space(t, d)) ensures d == e {
        SpaceShape(t, e);
        assert DrawsFrom(t, A.Space(t, e), d) && DrawsFrom(t, A.Space(t, e), e);
        assert OneDistrict(t, A.Space(t, e));
      }
    }
  }

  lemma ApartMeansOne(t: Topology, from: string)
    requires Validate(t) && SpacesApart(t)
    ensures OneDistrict(t, from)
  {
    forall d, e | DrawsFrom(t, from, d) && DrawsFrom(t, from, e) ensures d == e {
      SpaceShape(t, d);
      SpaceShape(t, e);
      var sd, se := A.Space(t, d), A.Space(t, e);
      SharedSubjectNests(from, sd[..|sd| - 2], se[..|se| - 2]);
      assert d != e ==> !UnderPrefix(sd, se) && !UnderPrefix(se, sd);
    }
  }

  // ---- the fan-out of the DMZ ----

  ghost predicate Alike(s: Share, z: Share) { s.from == z.from && s.public == z.public }

  /** How many shares carry the same transform as s. */
  ghost function Twins(shares: seq<Share>, s: Share): nat
  {
    if shares == [] then 0
    else Twins(shares[..|shares| - 1], s) + (if Alike(s, shares[|shares| - 1]) then 1 else 0)
  }

  lemma {:induction false} ShardNamesAre(t: Topology, parts: seq<Part>, d: string, name: string)
    ensures name in ShardNames(t, parts, d) <==> exists x <- parts :: x.district == d && ShardName(t, x) == name
  {
    if parts != [] {
      var front, last := parts[..|parts| - 1], parts[|parts| - 1];
      ShardNamesAre(t, front, d, name);
      assert parts == front + [last];
    }
  }

  lemma {:induction false} ShardNamesDistinct(t: Topology, parts: seq<Part>, d: string)
    requires StrictBy(parts, PartName) && forall x <- parts :: Entry(t, x)
    ensures Distinct(ShardNames(t, parts, d))
  {
    hide ShardName, Entry;
    if parts != [] {
      var front, last := parts[..|parts| - 1], parts[|parts| - 1];
      ShardNamesDistinct(t, front, d);
      if ShardName(t, last) in ShardNames(t, front, d) {
        ShardNamesAre(t, front, d, ShardName(t, last));
        var x :| x in front && x.district == d && ShardName(t, x) == ShardName(t, last);
        var i :| 0 <= i < |front| && front[i] == x;
        assert Less(PartName(parts[i]), PartName(last));
        ShardOrder(t, x, last);
        LessIrreflexive(ShardName(t, x), ShardName(t, last));
      }
    }
  }

  lemma FanCount(t: Topology, z: Share, names: seq<string>, s: Share, shard: string)
    requires CentralReady(t) && Fanned(z) && Fanned(s) && Distinct(names)
    ensures multiset(Fan(t, z, names))[ShareSource(t, s, shard)] == if Alike(s, z) && shard in names then 1 else 0
  {
    var fan, src := Fan(t, z, names), ShareSource(t, s, shard);
    CountOne(fan, src);
    if Alike(s, z) && shard in names {
      var i :| 0 <= i < |names| && names[i] == shard;
      assert fan[i] == src;
    }
    assert src in multiset(fan) <==> src in fan;
  }

  /** How many of them draw on district d. */
  ghost function ChosenTwins(shares: seq<Share>, choice: seq<string>, s: Share, d: string): nat
    requires |choice| == |shares|
  {
    if shares == [] then 0
    else
      var n := |shares| - 1;
      ChosenTwins(shares[..n], choice[..n], s, d) + (if Alike(s, shares[n]) && choice[n] == d then 1 else 0)
  }

  /** A shard is listed under its own partition's district only. */
  lemma ShardIsOwn(t: Topology, parts: seq<Part>, x: Part, d: string)
    requires StrictBy(parts, PartName) && (forall y <- parts :: Entry(t, y)) && x in parts
    ensures ShardName(t, x) in ShardNames(t, parts, d) <==> x.district == d
  {
    hide ShardName, Entry;
    ShardNamesAre(t, parts, d, ShardName(t, x));
    if y :| y in parts && y.district == d && ShardName(t, y) == ShardName(t, x) {
      ShardOrder(t, x, y);
      ShardOrder(t, y, x);
      LessTotal(x.streamName, y.streamName);
      SameNameSamePart(parts, x, y, ShardName(t, x));
    }
  }

  lemma SameNameSamePart(parts: seq<Part>, x: Part, y: Part, name: string)
    requires StrictBy(parts, PartName) && x in parts && y in parts
    requires (Less(name, name) <==> Less(x.streamName, y.streamName))
    requires (Less(name, name) <==> Less(y.streamName, x.streamName))
    ensures x == y
  {
    StrictIsDistinct(parts, PartName);
    if Less(name, name) { LessIrreflexive(name, name); }
    LessTotal(x.streamName, y.streamName);
    var i :| 0 <= i < |parts| && parts[i] == x;
    var j :| 0 <= j < |parts| && parts[j] == y;
    assert PartName(parts[i]) == PartName(parts[j]);
  }

  lemma {:induction false} SourceCount(t: Topology, parts: seq<Part>, shares: seq<Share>, choice: seq<string>,
                                       s: Share, x: Part)
    requires CentralReady(t) && |choice| == |shares| && Fanned(s)
    requires StrictBy(parts, PartName) && (forall y <- parts :: Entry(t, y)) && x in parts
    ensures multiset(DmzSources(t, parts, shares, choice))[ShareSource(t, s, ShardName(t, x))] ==
              ChosenTwins(shares, choice, s, x.district)
  {
    hide ShardNames, ShareSource, StrictBy, Entry, ShardName;
    if shares != [] {
      var n := |shares| - 1;
      SourceCount(t, parts, shares[..n], choice[..n], s, x);
      if Fanned(shares[n]) {
        ShardNamesDistinct(t, parts, choice[n]);
        FanCount(t, shares[n], ShardNames(t, parts, choice[n]), s, ShardName(t, x));
        ShardIsOwn(t, parts, x, choice[n]);
      }
    }
  }

  /**
    Whatever districts the plan's shares were matched to: the DMZ stream holds a share's transform
    on a partition's shard once for each share alike that was matched to the partition's district.
   */
  lemma SharesFanOut(t: Topology, p: Plan, dmz: Stream) returns (choice: seq<string>)
    requires PlanOf(t, p) && dmz in p.streams && dmz.tier.DMZTier?
    ensures CentralReady(t) && ChoiceOf(t, A.Shares(t), choice)
    ensures forall s, x :: Fanned(s) && Entry(t, x) ==>
              var name := CentralShardStreamName(t.dot, x.district, x.id);
              var src := Source(name, CentralDomain(t), "", s.from.value, s.public.value);
              multiset(dmz.sources)[src] == ChosenTwins(A.Shares(t), choice, s, x.district)
  {
    var parts, streams :| PlanFrom(t, parts, streams, p);
    assert dmz in streams by { DmzAmong(t, parts, streams, p, dmz); }
    choice :| DmzFrom(t, parts, choice, streams);
    forall s, x | Fanned(s) && Entry(t, x)
      ensures var name := CentralShardStreamName(t.dot, x.district, x.id);
              var src := Source(name, CentralDomain(t), "", s.from.value, s.public.value);
              multiset(dmz.sources)[src] == ChosenTwins(A.Shares(t), choice, s, x.district)
    {
      assert x in parts;
      SourceCount(t, parts, t.dmz.value.shares, choice, s, x);
    }
  }

  lemma {:induction false} OneChoice(t: Topology, shares: seq<Share>, choice: seq<string>, s: Share, d: string)
    requires ChoiceOf(t, shares, choice) && Fanned(s) && DrawsFrom(t, s.from.value, d) && OneDistrict(t, s.from.value)
    ensures ChosenTwins(shares, choice, s, d) == Twins(shares, s)
  {
    if shares != [] {
      var n := |shares| - 1;
      OneChoice(t, shares[..n], choice[..n], s, d);
      if Alike(s, shares[n]) { assert DrawsFrom(t, shares[n].from.value, choice[n]); }
    }
  }

  /** A share that matches one district: one source per shard of it, for each share alike. */
  lemma OneDistrictFansOut(t: Topology, p: Plan, dmz: Stream, s: Share, d: string, x: Part)
    requires PlanOf(t, p) && dmz in p.streams && dmz.tier.DMZTier?
    requires Fanned(s) && DrawsFrom(t, s.from.value, d) && OneDistrict(t, s.from.value) && Entry(t, x)
    requires x.district == d
    ensures CentralReady(t)
    ensures var name := CentralShardStreamName(t.dot, x.district, x.id);
            var src := Source(name, CentralDomain(t), "", s.from.value, s.public.value);
            multiset(dmz.sources)[src] == Twins(A.Shares(t), s)
  {
    hide PlanOf, Entry, CentralShardStreamName;
    var choice := SharesFanOut(t, p, dmz);
    OneChoice(t, A.Shares(t), choice, s, d);
  }

  lemma DmzAmong(t: Topology, parts: seq<Part>, dmz: seq<Stream>, p: Plan, s: Stream)
    requires PlanFrom(t, parts, dmz, p) && s in p.streams && s.tier.DMZTier?
    ensures s in dmz
  {
    var k :| 0 <= k < |p.streams| && p.streams[k] == s;
  }

  /** The source by which a share draws on the shard of a partition in its district. */
  ghost predicate Pulls(t: Topology, s: Share, x: Part, src: Source)
    requires CentralReady(t)
  {
    Fanned(s) && DrawsFrom(t, s.from.value, x.district) && src == ShareSource(t, s, ShardName(t, x))
  }

  /** And it holds nothing else. */
  lemma {:induction false} OnlyShares(t: Topology, parts: seq<Part>, shares: seq<Share>, choice: seq<string>,
                                      src: Source)
    requires CentralReady(t) && ChoiceOf(t, shares, choice) && src in DmzSources(t, parts, shares, choice)
    ensures exists s, x :: s in shares && x in parts && Pulls(t, s, x, src)
  {
    var n := |shares| - 1;
    if src in DmzSources(t, parts, shares[..n], choice[..n]) {
      OnlyShares(t, parts, shares[..n], choice[..n], src);
      var s, x :| s in shares[..n] && x in parts && Pulls(t, s, x, src);
      assert s in shares;
    } else {
      var s := shares[n];
      var names := ShardNames(t, parts, choice[n]);
      var i :| 0 <= i < |names| && ShareSource(t, s, names[i]) == src;
      ShardNamesAre(t, parts, choice[n], names[i]);
      var x :| x in parts && x.district == choice[n] && ShardName(t, x) == names[i];
      assert s in shares && Pulls(t, s, x, src);
    }
  }

  // ---- what holds of every stream ----

  /** One stream's source is another stream of the plan, one wave up, in the domain named. */
  ghost predicate Feeds(z: Stream, src: Source, s: Stream)
  {
    && z.name == src.name && z.jsDomain == src.domain
    && match s.tier
       case RegionalTier => false
       case CentralTier => z.tier.RegionalTier?
       case DMZTier => z.tier.CentralTier?
  }

  /** No source dangles, and data flows from regional to central to DMZ: nothing sources the republishing stream. */
  lemma SourcesResolve(t: Topology, p: Plan, s: Stream, src: Source)
    requires PlanOf(t, p) && s in p.streams && src in s.sources
    ensures exists z <- p.streams :: Feeds(z, src, s)
  {
    hide PlanOf, ShardName, Entry, JSDomain;
    NothingElse(t, p, s);
    assert s.tier.RegionalTier? ==> s.sources == [];
    match s.tier {
      case RegionalTier =>
      case CentralTier =>
        var x :| Entry(t, x) && Placed(t, x) && s == Shard(t, x);
        var i, j := EveryPartitionOnce(t, p, x);
        assert p.streams[i] in p.streams && Feeds(p.streams[i], src, s);
      case DMZTier =>
        var x := DmzSourceFrom(t, p, s, src);
        var i, j := EveryPartitionOnce(t, p, x);
        assert p.streams[j] in p.streams && Feeds(p.streams[j], src, s);
    }
  }

  lemma DmzSourceFrom(t: Topology, p: Plan, s: Stream, src: Source) returns (x: Part)
    requires PlanOf(t, p) && s in p.streams && s.tier.DMZTier? && src in s.sources
    ensures CentralReady(t) && Entry(t, x) && src.name == ShardName(t, x) && src.domain == CentralDomain(t)
  {
    var parts, dmz :| PlanFrom(t, parts, dmz, p);
    hide ShardName;
    DmzAmong(t, parts, dmz, p, s);
    var choice :| DmzFrom(t, parts, choice, dmz);
    OnlyShares(t, parts, t.dmz.value.shares, choice, src);
    var z: Share, y: Part :| z in t.dmz.value.shares && y in parts && Pulls(t, z, y, src);
    x := y;
  }

  /** Storage is bounded, replicas are what NATS allows, and only the DMZ stream dedupes and echoes. */
  lemma StreamsAreBounded(t: Topology, p: Plan, s: Stream)
    requires Validate(t) && PlanOf(t, p) && s in p.streams
    ensures 0 < s.maxBytes < 0x8000_0000_0000_0000 && 1 <= s.replicas <= 5 && s.maxAge != ""
    ensures s.tier.DMZTier? <==> s.republishSource != ""
    ensures s.republishDest == s.republishSource && (s.duplicates != "" <==> s.tier.DMZTier?)
  {
    hide PlanOf, PartitionStreamName, CentralShardStreamName, DMZStreamName;
    NothingElse(t, p, s);
  }

  // ---- names across tiers ----

  /** Some partition's regional name is some other partition's shard name. */
  ghost predicate CentralClash(t: Topology)
  {
    exists x, y :: Entry(t, x) && Entry(t, y) && ClashingPair(x, y)
  }

  ghost predicate ClashingPair(x: Part, y: Part)
  {
    "CENTRAL_" + PartitionSuffix(x.district, x.id) == PartitionSuffix(y.district, y.id)
  }

  ghost predicate NamesDiffer(streams: seq<Stream>)
  {
    forall i, j :: 0 <= i < j < |streams| ==> streams[i].name != streams[j].name
  }

  lemma ShardAgainstRegional(t: Topology, x: Part, y: Part)
    requires Entry(t, y)
    ensures ShardName(t, x) == y.streamName <==> ClashingPair(x, y)
  {
    var head := "VIKASA_" + Sanitize(t.dot) + "_";
    assert ShardName(t, x) == head + ("CENTRAL_" + PartitionSuffix(x.district, x.id));
    assert y.streamName == head + PartitionSuffix(y.district, y.id);
    assert (head + ("CENTRAL_" + PartitionSuffix(x.district, x.id)))[|head|..] ==
        "CENTRAL_" + PartitionSuffix(x.district, x.id);
    assert (head + PartitionSuffix(y.district, y.id))[|head|..] == PartitionSuffix(y.district, y.id);
  }

  /** "DMZ" has no underscore, so neither kind of partition name can equal it. */
  lemma DmzNameApart(t: Topology, x: Part)
    requires Entry(t, x)
    ensures DMZStreamName(t.dot) != ShardName(t, x) && DMZStreamName(t.dot) != x.streamName
  {
    var head := "VIKASA_" + Sanitize(t.dot) + "_";
    var suffix := PartitionSuffix(x.district, x.id);
    assert suffix[|Sanitize(x.district)|] == '_';
    assert DMZStreamName(t.dot) == head + "DMZ" && (head + "DMZ")[|head|..] == "DMZ";
    assert x.streamName == head + suffix && (head + suffix)[|head|..] == suffix;
    assert ShardName(t, x) == head + ("CENTRAL_" + suffix) && |ShardName(t, x)| > |head + "DMZ"|;
    assert '_' in suffix && '_' !in "DMZ";
  }

  /** All names of a plan differ exactly when no partition clashes with another's shard. */
  lemma NamesDifferExactly(t: Topology, p: Plan)
    requires PlanOf(t, p)
    ensures NamesDiffer(p.streams) <==> !CentralClash(t)
  {
    var parts, dmz :| PlanFrom(t, parts, dmz, p);
    WavesInOrder(t, p);
    hide PlanFrom, PlanOf, CentralClash;
    StreamCount(t, parts, dmz, p);
    forall i, j | 0 <= i < j < |p.streams| && p.streams[i].name == p.streams[j].name ensures CentralClash(t) {
      EqualNamesClash(t, parts, dmz, p, i, j);
    }
    if CentralClash(t) {
      ClashShows(t, parts, dmz, p);
    }
  }

  lemma NameAt(t: Topology, parts: seq<Part>, dmz: seq<Stream>, p: Plan, k: nat)
    requires PlanFrom(t, parts, dmz, p) && k < |p.streams|
    ensures |p.streams| == 2 * |parts| + |dmz|
    ensures k < |parts| ==>
              Entry(t, parts[k]) && p.streams[k].tier.CentralTier? && p.streams[k].name == ShardName(t, parts[k])
    ensures |parts| <= k < 2 * |parts| ==>
      Entry(t, parts[k - |parts|]) && p.streams[k].tier.RegionalTier?
          && p.streams[k].name == parts[k - |parts|].streamName
    ensures 2 * |parts| <= k ==> p.streams[k].tier.DMZTier? && p.streams[k].name == DMZStreamName(t.dot)
  {
    hide Entry, ShardName, PartSource, JSDomain, DMZStreamName, Less;
    StreamAt(t, parts, dmz, p, k);
  }

  lemma EqualNamesClash(t: Topology, parts: seq<Part>, dmz: seq<Stream>, p: Plan, i: nat, j: nat)
    requires PlanFrom(t, parts, dmz, p) && StrictBy(p.streams, Rank)
    requires i < j < |p.streams| && p.streams[i].name == p.streams[j].name
    ensures CentralClash(t)
  {
    hide PlanFrom, Less, Rank, Entry, ShardName, DMZStreamName, ClashingPair;
    NameAt(t, parts, dmz, p, i);
    NameAt(t, parts, dmz, p, j);
    var n := |parts|;
    TiersDiffer(p.streams[i], p.streams[j]);
    RankOrder(p.streams[i], p.streams[j]);
    if j < 2 * n {
      ShardAgainstRegional(t, parts[i], parts[j - n]);
    } else {
      DmzNameApart(t, parts[if i < n then i else i - n]);
    }
  }

  lemma TiersDiffer(a: Stream, b: Stream)
    requires Less(Rank(a), Rank(b)) && a.name == b.name
    ensures a.tier != b.tier
  {
    RankOrder(a, b);
    if a.tier == b.tier { LessIrreflexive(a.name, b.name); }
  }

  lemma ClashShows(t: Topology, parts: seq<Part>, dmz: seq<Stream>, p: Plan)
    requires PlanFrom(t, parts, dmz, p) && CentralClash(t)
    ensures !NamesDiffer(p.streams)
  {
    hide *;
    var i, j := ClashIndices(t, parts, dmz, p);
    StreamCount(t, parts, dmz, p);
    NameAt(t, parts, dmz, p, i);
    NameAt(t, parts, dmz, p, |parts| + j);
    SameName(p.streams, i, |parts| + j);
  }

  lemma ClashIndices(t: Topology, parts: seq<Part>, dmz: seq<Stream>, p: Plan) returns (i: nat, j: nat)
    requires PlanFrom(t, parts, dmz, p) && CentralClash(t)
    ensures i < |parts| && j < |parts| && ShardName(t, parts[i]) == parts[j].streamName
  {
    hide ShardName, ClashingPair, Entry, DmzOf, DnsOf;
    var x, y :| Entry(t, x) && Entry(t, y) && ClashingPair(x, y);
    ShardAgainstRegional(t, x, y);
    assert x in parts && y in parts;
    i :| 0 <= i < |parts| && parts[i] == x;
    j :| 0 <= j < |parts| && parts[j] == y;
  }

  lemma SameName(streams: seq<Stream>, i: nat, j: nat)
    requires i < j < |streams| && streams[i].name == streams[j].name
    ensures !NamesDiffer(streams)
  {
  }

  predicate CentralLike(d: string) { d == "central" || "central-" <= d }

  /** A clash needs a district called central, or central-something. */
  lemma ClashNeedsCentral(t: Topology, x: Part, y: Part)
    requires Validate(t) && Entry(t, y) && ClashingPair(x, y)
    ensures CentralLike(y.district)
  {
    assert ValidDistrict(t.dot, y.district, t.district[y.district]);
    var d, s := y.district, Sanitize(y.district);
    var rest := Sanitize(y.id);
    var whole := s + "_" + rest;
    assert whole == "CENTRAL_" + PartitionSuffix(x.district, x.id);
    assert whole[..8] == "CENTRAL_";
    assert forall i :: 0 <= i < 7 ==> whole[i] == whole[..8][i] && "CENTRAL_"[i] != '_';
    assert whole[|s|] == '_';
    SpellsCentral(d);
  }

  lemma SpellsCentral(d: string)
    requires Token(d) && |d| >= 7
    requires (Sanitize(d) + "_")[..8] == "CENTRAL_"
    ensures CentralLike(d)
  {
    assert forall i :: 0 <= i < 7 ==> d[i] in d && Sanitize(d)[i] == (Sanitize(d) + "_")[..8][i] == "CENTRAL_"[i];
    assert d[..7] == "central";
    if |d| == 7 {
      assert d == d[..7];
    } else {
      assert d[7] in d && Sanitize(d)[7] == (Sanitize(d) + "_")[..8][7] == '_';
      assert d[..8] == d[..7] + [d[7]];
      assert d[..8] == "central-";
    }
  }

  lemma NamesDifferUnlessCentral(t: Topology, p: Plan)
    requires Validate(t) && PlanOf(t, p) && forall d <- t.district :: !CentralLike(d)
    ensures NamesDiffer(p.streams)
  {
    NamesDifferExactly(t, p);
    if CentralClash(t) {
      var x, y :| Entry(t, x) && Entry(t, y) && ClashingPair(x, y);
      ClashNeedsCentral(t, x, y);
    }
  }

  lemma CentralNamesMeet(dot: string, a: string, b: string)
    ensures PartitionStreamName(dot, "central", a + "-" + b) == CentralShardStreamName(dot, a, b)
  {
    SanitizeConcat(a + "-", b);
    SanitizeConcat(a, "-");
    assert Sanitize("-") == "_";
    assert Sanitize("central") == "CENTRAL";
  }
}

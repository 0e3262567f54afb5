/**
  cmd/gen compares two plans after attaching one inventory to both, so that the comparison shows
  where streams are placed and not how cabinets come and go. This is exactly when it succeeds.
 */
module Churn {
  import opened Basics
  import opened Text
  import opened Naming
  import opened Sorting
  import opened Topology
  import opened Fleet
  import opened Plan
  import opened Cabinets
  import opened Diff
  import opened PlanChoice

  // ---- what a partition's stream draws on ----

  /** The cabinets of a partition, as sources. */
  ghost function Aboard(inv: Option<Inventory>, part: string): set<Source>
  {
    if inv.None? then {} else set c | c in inv.value.cabinets && c.partition == part :: BufferSource(c)
  }

  /** No later stream has the name: the index keeps this one. */
  lemma {:induction false} IndexLast(ss: seq<Stream>, i: nat)
    requires i < |ss| && forall j :: i < j < |ss| ==> ss[j].name != ss[i].name
    ensures ss[i].name in Index(ss) && Index(ss)[ss[i].name] == ss[i]
  {
    if i < |ss| - 1 { IndexLast(ss[..|ss| - 1], i); }
  }

  /** A regional stream is the last of its name. */
  lemma RegionalIsLast(t: Topology, b: Plan, x: Part, i: nat, j: nat)
    requires PlanOf(t, b) && Entry(t, x) && Placed(t, x) && i < j < |b.streams| && b.streams[i] == RegionalStream(t, x)
    ensures b.streams[j].name != x.streamName
  {
    hide PlanOf, Rank, Entry, DMZStreamName, ShardName;
    WavesInOrder(t, b);
    var r, s := b.streams[i], b.streams[j];
    assert Less(Rank(r), Rank(s));
    RankOrder(r, s);
    assert s in b.streams;
    NothingElse(t, b, s);
    DmzNameApart(t, x);
    if s.name == r.name { TiersDiffer(r, s); }
  }

  ghost predicate OnlyRegional(ss: seq<Stream>, name: string, i: nat)
  {
    forall k :: 0 <= k < |ss| && ss[k].tier.RegionalTier? && ss[k].name == name ==> k == i
  }

  lemma PlanFacts(t: Topology, b: Plan)
    requires PlanOf(t, b)
    ensures AllAssigned(t) && NamesApart(t) && b.dot == t.dot
  {
    PlanIsBuildable(t, b);
  }

  /** A cabinet's home is the stream of its partition. */
  lemma HomeIsPartition(t: Topology, b: Plan, districts: map<string, string>, index: map<string, nat>, x: Part,
                        i: nat, c: Cabinet)
    requires PlanOf(t, b) && Maps(b.streams, t, districts, index) && Entry(t, x)
    requires i < |b.streams| && b.streams[i].name == x.streamName && OnlyRegional(b.streams, x.streamName, i)
    ensures Home(b.dot, districts, index, c) == Some(i) <==> c.partition == x.id
  {
    hide PlanOf, PartitionStreamName, NamesApart;
    PlanFacts(t, b);
    assert Owns(t, x.district, x.id) && x.id in districts && districts[x.id] == x.district;
    if c.partition in districts {
      assert Owns(t, districts[c.partition], c.partition);
      var z := PartOf(t, districts[c.partition], c.partition);
      assert Entry(t, z);
      var k, _ := EveryPartitionOnce(t, b, z);
      PlaceOfName(b.streams, index, z.streamName, k);
      if z.streamName == x.streamName { SamePart(t, x, z); }
    }
  }

  lemma SamePart(t: Topology, x: Part, z: Part)
    requires NamesApart(t) && Entry(t, x) && Entry(t, z) && x.streamName == z.streamName
    ensures x == z
  {
  }

  lemma PlaceOfName(ss: seq<Stream>, index: map<string, nat>, name: string, k: nat)
    requires StreamIndex(ss, index) && k < |ss| && ss[k].tier.RegionalTier? && ss[k].name == name
    ensures name in index && index[name] < |ss| && ss[index[name]].tier.RegionalTier? && ss[index[name]].name == name
  {
  }

  /** The stream of a partition, as Diff sees it, draws on the partition's cabinets. */
  lemma PartSources(t: Topology, inv: Option<Inventory>, b: Plan, p: Plan, x: Part)
    requires Made(t, inv, b, p) && Entry(t, x)
    ensures Placed(t, x) && x.streamName in Index(b.streams) && x.streamName in Index(p.streams)
    ensures Index(b.streams)[x.streamName] == RegionalStream(t, x)
    ensures var s := Index(p.streams)[x.streamName];
            && SamePlace(RegionalStream(t, x), s) && StrictBy(s.sources, Domain)
            && forall src :: src in s.sources <==> src in Aboard(inv, x.id)
  {
    MadeInPlace(t, inv, b, p);
    assert PlanOf(t, b);
    hide PlanOf, Entry, Index, Attached, AttachOk, Loaded;
    var i, _ := EveryPartitionOnce(t, b, x);
    forall j | i < j < |b.streams| ensures b.streams[j].name != x.streamName && p.streams[j].name != x.streamName {
      RegionalIsLast(t, b, x, i, j);
      assert SamePlace(b.streams[j], p.streams[j]);
    }
    assert SamePlace(b.streams[i], p.streams[i]);
    IndexLast(b.streams, i);
    IndexLast(p.streams, i);
    if inv.Some? { AttachedSources(t, inv.value, b, p, x, i); }
  }

  lemma AttachedSources(t: Topology, v: Inventory, b: Plan, p: Plan, x: Part, i: nat)
    requires Made(t, Some(v), b, p) && Entry(t, x) && Placed(t, x)
    requires i < |b.streams| && b.streams[i] == RegionalStream(t, x) && OnlyRegional(b.streams, x.streamName, i)
    ensures i < |p.streams| && StrictBy(p.streams[i].sources, Domain)
    ensures forall src :: src in p.streams[i].sources <==> src in Aboard(Some(v), x.id)
  {
    hide PlanOf, Entry, AttachOk, Loaded, Maps, AttachedBy, Home;
    var districts, index :| Maps(b.streams, t, districts, index)
      && AttachedBy(b.streams, p.streams, b.dot, v.cabinets, districts, index);
    MadeInPlace(t, Some(v), b, p);
    SourcesAre(t, b, v, p.streams, districts, index, i);
    forall c ensures Home(b.dot, districts, index, c) == Some(i) <==> c.partition == x.id {
      HomeIsPartition(t, b, districts, index, x, i, c);
    }
  }

  // ---- when cabinets show in a comparison ----

  /**
    The two topologies give one stream name to different partitions, the streams are otherwise the
    same, and some cabinet is on one of them.
   */
  ghost predicate Confused(t: Topology, u: Topology, inv: Option<Inventory>, x: Part, y: Part)
  {
    && Entry(t, x) && Entry(u, y) && x.streamName == y.streamName && x.id != y.id
    && Placed(t, x) && Placed(u, y) && RegionalStream(t, x) == RegionalStream(u, y)
    && Aboard(inv, x.id) + Aboard(inv, y.id) != {}
  }

  lemma AboardApart(inv: Option<Inventory>, p: string, q: string, src: Source)
    requires (inv.Some? ==> Loaded(inv.value)) && src in Aboard(inv, p) && src in Aboard(inv, q)
    ensures p == q
  {
    var c :| c in inv.value.cabinets && c.partition == p && src == BufferSource(c);
    var e :| e in inv.value.cabinets && e.partition == q && src == BufferSource(e);
    SameId(inv.value, c, e);
  }

  lemma SameSourcesExactly(inv: Option<Inventory>, a: seq<Source>, b: seq<Source>, p: string, q: string)
    requires (inv.Some? ==> Loaded(inv.value)) && StrictBy(a, Domain) && StrictBy(b, Domain)
    requires forall src :: src in a <==> src in Aboard(inv, p)
    requires forall src :: src in b <==> src in Aboard(inv, q)
    ensures a == b <==> p == q || Aboard(inv, p) + Aboard(inv, q) == {}
  {
    hide Loaded, Aboard;
    if a == b {
      if src :| src in Aboard(inv, p) + Aboard(inv, q) {
        assert src in a && src in b;
        AboardApart(inv, p, q, src);
      }
    } else {
      if p == q || Aboard(inv, p) + Aboard(inv, q) == {} {
        assert forall src :: src in Aboard(inv, p) ==> src in Aboard(inv, p) + Aboard(inv, q);
        assert forall src :: src in Aboard(inv, q) ==> src in Aboard(inv, p) + Aboard(inv, q);
        StrictUnique(a, b, Domain);
      }
    }
  }

  ghost predicate Changed(a: Streams, b: Streams, n: string)
  {
    n in a && n in b && !Relocated(a[n], b[n]) && StreamConfigChanged(a[n], b[n])
  }

  ghost predicate ConfusedAt(t: Topology, u: Topology, inv: Option<Inventory>, n: string)
  {
    exists x, y :: Confused(t, u, inv, x, y) && x.streamName == n
  }

  /** Name by name: cabinets add a change just where partitions are confused. */
  lemma ChangedExactly(t: Topology, u: Topology, inv: Option<Inventory>, b: Plan, c: Plan, p: Plan, q: Plan, n: string)
    requires Made(t, inv, b, p) && Made(u, inv, c, q) && n in Index(b.streams) && n in Index(c.streams)
    ensures Changed(Index(p.streams), Index(q.streams), n) <==>
              Changed(Index(b.streams), Index(c.streams), n) || ConfusedAt(t, u, inv, n)
    ensures ConfusedAt(t, u, inv, n) ==> !Changed(Index(b.streams), Index(c.streams), n)
  {
    hide SamePlace, Index, Made;
    var s, r := Index(b.streams)[n], Index(c.streams)[n];
    MadeInPlace(t, inv, b, p);
    MadeInPlace(u, inv, c, q);
    IndexInPlace(b.streams, p.streams);
    IndexInPlace(c.streams, q.streams);
    if s.tier.RegionalTier? && r.tier.RegionalTier? {
      var x := PartAt(t, inv, b, p, n);
      var y := PartAt(u, inv, c, q, n);
      RegionalChange(t, u, inv, b, c, p, q, x, y);
    } else {
      if ConfusedAt(t, u, inv, n) {
        var x, y :| Confused(t, u, inv, x, y) && x.streamName == n;
        PartSources(t, inv, b, p, x);
        PartSources(u, inv, c, q, y);
      }
      OtherChange(s, Index(p.streams)[n], r, Index(q.streams)[n]);
    }
  }

  lemma PartAt(t: Topology, inv: Option<Inventory>, b: Plan, p: Plan, n: string) returns (x: Part)
    requires Made(t, inv, b, p) && n in Index(b.streams) && Index(b.streams)[n].tier.RegionalTier?
    ensures Entry(t, x) && x.streamName == n
  {
    hide PlanOf, Attached, AttachOk, Loaded, Entry;
    var s := Index(b.streams)[n];
    NothingElse(t, b, s);
    x :| Entry(t, x) && Placed(t, x) && s == RegionalStream(t, x);
  }

  /** Where one is no regional stream, cabinets make no difference. */
  lemma OtherChange(s: Stream, s': Stream, r: Stream, r': Stream)
    requires SamePlace(s, s') && SamePlace(r, r') && !(s.tier.RegionalTier? && r.tier.RegionalTier?)
    ensures Relocated(s', r') <==> Relocated(s, r)
    ensures StreamConfigChanged(s', r') <==> StreamConfigChanged(s, r)
  {
  }

  lemma RegionalChange(t: Topology, u: Topology, inv: Option<Inventory>, b: Plan, c: Plan, p: Plan, q: Plan,
                       x: Part, y: Part)
    requires Made(t, inv, b, p) && Made(u, inv, c, q) && Entry(t, x) && Entry(u, y) && x.streamName == y.streamName
    ensures var n := x.streamName;
            && (Changed(Index(p.streams), Index(q.streams), n) <==>
                Changed(Index(b.streams), Index(c.streams), n) || ConfusedAt(t, u, inv, n))
            && (ConfusedAt(t, u, inv, n) ==> !Changed(Index(b.streams), Index(c.streams), n))
  {
    var n := x.streamName;
    PartSources(t, inv, b, p, x);
    PartSources(u, inv, c, q, y);
    MadeFacts(t, inv, b, p);
    MadeFacts(u, inv, c, q);
    hide Made, Index, Entry, Aboard, RegionalStream, Loaded, Placed, NamesApart, StreamConfigChanged, Relocated;
    var s, r, s', r' := Index(b.streams)[n], Index(c.streams)[n], Index(p.streams)[n], Index(q.streams)[n];
    SameSourcesExactly(inv, s'.sources, r'.sources, x.id, y.id);
    BareChange(t, u, x, y, s, s', r, r');
    if ConfusedAt(t, u, inv, n) {
      var v, w :| Confused(t, u, inv, v, w) && v.streamName == n;
      SamePart(t, x, v);
      SamePart(u, y, w);
    }
    assert Confused(t, u, inv, x, y) ==> ConfusedAt(t, u, inv, n);
  }

  lemma MadeFacts(t: Topology, inv: Option<Inventory>, b: Plan, p: Plan)
    requires Made(t, inv, b, p)
    ensures NamesApart(t) && (inv.Some? ==> Loaded(inv.value))
  {
    PlanFacts(t, b);
  }

  lemma BareChange(t: Topology, u: Topology, x: Part, y: Part, s: Stream, s': Stream, r: Stream, r': Stream)
    requires Placed(t, x) && Placed(u, y) && s == RegionalStream(t, x) && r == RegionalStream(u, y)
    requires SamePlace(s, s') && SamePlace(r, r') && s.name == r.name
    ensures Relocated(s', r') <==> Relocated(s, r)
    ensures s == r <==> !Relocated(s, r) && !StreamConfigChanged(s, r)
    ensures !Relocated(s, r) ==>
              (StreamConfigChanged(s', r') <==> StreamConfigChanged(s, r) || s'.sources != r'.sources)
  {
    UnchangedIsEqual(s, r);
    UnchangedIsEqual(s', r');
  }

  // ---- the names in a delta ----

  function Names<T(!new)>(s: seq<T>, key: T -> string): (r: seq<string>)
    ensures |r| == |s|
  {
    seq(|s|, i requires 0 <= i < |s| => key(s[i]))
  }

  lemma NamesAre<T(!new)>(s: seq<T>, key: T -> string, n: string)
    ensures n in Names(s, key) <==> exists x <- s :: key(x) == n
  {
    if x :| x in s && key(x) == n {
      var i :| 0 <= i < |s| && s[i] == x;
      assert Names(s, key)[i] == n;
    }
  }

  lemma SameNames<T(!new)>(a: seq<T>, b: seq<T>, key: T -> string)
    requires StrictBy(a, key) && StrictBy(b, key)
    ensures Names(a, key) == Names(b, key) <==> forall n :: n in Names(a, key) <==> n in Names(b, key)
  {
    hide Less;
    assert StrictBy(Names(a, key), Self) && StrictBy(Names(b, key), Self);
    if forall n :: n in Names(a, key) <==> n in Names(b, key) {
      StrictUnique(Names(a, key), Names(b, key), Self);
    }
  }

  function Self(s: string): string { s }

  lemma NamesIn(a: Streams, b: Streams, d: Delta, n: string)
    requires Diff.Keyed(a) && Diff.Keyed(b) && StreamsDelta(a, b, d)
    ensures n in Names(d.added, NameOf) <==> n in b && n !in a
    ensures n in Names(d.removed, NameOf) <==> n in a && n !in b
    ensures n in Names(d.moved, MoveName) <==> n in a && n in b && Relocated(a[n], b[n])
    ensures n in Names(d.modified, MoveName) <==> Changed(a, b, n)
  {
    hide StrictBy, Relocated, StreamConfigChanged, Names;
    NamesAre(d.added, NameOf, n);
    NamesAre(d.removed, NameOf, n);
    NamesAre(d.moved, MoveName, n);
    NamesAre(d.modified, MoveName, n);
    if n in b && n !in a { assert IsAdded(a, b, b[n]); }
    if n in a && n !in b { assert IsAdded(b, a, a[n]); }
    if n in a && n in b {
      var m := StreamMove(a[n], b[n]);
      assert InBoth(a, b, m) && (IsMoved(a, b, m) <==> m in d.moved) && (IsModified(a, b, m) <==> m in d.modified);
    }
  }

  /** What the maps of two pairs of plans have in common, for one name. */
  ghost predicate SameAt(a: Streams, b: Streams, a': Streams, b': Streams, n: string)
  {
    && (n in a <==> n in a') && (n in b <==> n in b')
    && (n in a && n in b ==> (Relocated(a'[n], b'[n]) <==> Relocated(a[n], b[n])))
  }

  lemma SameAtName(t: Topology, u: Topology, inv: Option<Inventory>, b: Plan, c: Plan, p: Plan, q: Plan, n: string)
    requires Made(t, inv, b, p) && Made(u, inv, c, q)
    ensures SameAt(Index(b.streams), Index(c.streams), Index(p.streams), Index(q.streams), n)
  {
    hide Made, Index, SamePlaces;
    MadeInPlace(t, inv, b, p);
    MadeInPlace(u, inv, c, q);
    IndexInPlace(b.streams, p.streams);
    IndexInPlace(c.streams, q.streams);
  }

  lemma ChangedAtName(t: Topology, u: Topology, inv: Option<Inventory>, b: Plan, c: Plan, p: Plan, q: Plan, n: string)
    requires Made(t, inv, b, p) && Made(u, inv, c, q)
    ensures Changed(Index(p.streams), Index(q.streams), n) <==>
              Changed(Index(b.streams), Index(c.streams), n) || ConfusedAt(t, u, inv, n)
    ensures ConfusedAt(t, u, inv, n) ==> !Changed(Index(b.streams), Index(c.streams), n)
  {
    hide Made, Index, StreamConfigChanged, Relocated;
    SameAtName(t, u, inv, b, c, p, q, n);
    if n in Index(b.streams) && n in Index(c.streams) {
      ChangedExactly(t, u, inv, b, c, p, q, n);
    } else if ConfusedAt(t, u, inv, n) {
      var x, y :| Confused(t, u, inv, x, y) && x.streamName == n;
      PartSources(t, inv, b, p, x);
      PartSources(u, inv, c, q, y);
    }
  }

  ghost predicate SameShape(d: Delta, e: Delta)
  {
    && Names(d.added, NameOf) == Names(e.added, NameOf) && Names(d.removed, NameOf) == Names(e.removed, NameOf)
    && Names(d.moved, MoveName) == Names(e.moved, MoveName)
    && d.dnsAdded == e.dnsAdded && d.dnsRemoved == e.dnsRemoved && d.dnsChanged == e.dnsChanged
  }

  lemma ShapeFromMaps(a: Streams, b: Streams, a': Streams, b': Streams, d: Delta, e: Delta)
    requires Diff.Keyed(a) && Diff.Keyed(b) && StreamsDelta(a, b, d)
    requires Diff.Keyed(a') && Diff.Keyed(b') && StreamsDelta(a', b', e)
    requires forall n :: SameAt(a, b, a', b', n)
    ensures Names(d.added, NameOf) == Names(e.added, NameOf) && Names(d.removed, NameOf) == Names(e.removed, NameOf)
    ensures Names(d.moved, MoveName) == Names(e.moved, MoveName)
    ensures Names(d.modified, MoveName) == Names(e.modified, MoveName) <==>
              forall n :: Changed(a, b, n) <==> Changed(a', b', n)
  {
    hide StreamsDelta, Changed, StrictBy, Names;
    forall n
      ensures n in Names(d.added, NameOf) <==> n in Names(e.added, NameOf)
      ensures n in Names(d.removed, NameOf) <==> n in Names(e.removed, NameOf)
      ensures n in Names(d.moved, MoveName) <==> n in Names(e.moved, MoveName)
      ensures n in Names(d.modified, MoveName) <==> Changed(a, b, n)
      ensures n in Names(e.modified, MoveName) <==> Changed(a', b', n)
    {
      assert SameAt(a, b, a', b', n);
      NamesIn(a, b, d, n);
      NamesIn(a', b', e, n);
    }
    InNameOrder(a, b, d);
    InNameOrder(a', b', e);
    hide SameAt, Diff.Keyed;
    SameNames(d.added, e.added, NameOf);
    SameNames(d.removed, e.removed, NameOf);
    SameNames(d.moved, e.moved, MoveName);
    SameNames(d.modified, e.modified, MoveName);
  }

  lemma InNameOrder(a: Streams, b: Streams, d: Delta)
    requires StreamsDelta(a, b, d)
    ensures StrictBy(d.added, NameOf) && StrictBy(d.removed, NameOf)
    ensures StrictBy(d.moved, MoveName) && StrictBy(d.modified, MoveName)
  {
  }

  /**
    The comparison of two plans with one inventory attached to both, against that of the plans as
    built: the same streams and records come, go and move, and the same are changed in place exactly
    if no partition is confused with another.
   */
  lemma CabinetsShowExactly(t: Topology, u: Topology, inv: Option<Inventory>, b: Plan, c: Plan, p: Plan, q: Plan,
                            built: Delta, d: Delta)
    requires Made(t, inv, b, p) && Made(u, inv, c, q) && DeltaOf(b, c, built) && DeltaOf(p, q, d)
    ensures SameShape(built, d)
    ensures Names(d.modified, MoveName) == Names(built.modified, MoveName) <==>
              !exists x, y :: Confused(t, u, inv, x, y)
  {
    hide Index, Changed, Made, Confused, StreamsChange, RecordsChange;
    var a1, b1, a2, b2 := Index(b.streams), Index(c.streams), Index(p.streams), Index(q.streams);
    SameRecords(t, u, inv, b, c, p, q, built, d);
    forall n
      ensures SameAt(a1, b1, a2, b2, n)
      ensures Changed(a2, b2, n) <==> Changed(a1, b1, n) || ConfusedAt(t, u, inv, n)
      ensures ConfusedAt(t, u, inv, n) ==> !Changed(a1, b1, n)
    {
      SameAtName(t, u, inv, b, c, p, q, n);
      ChangedAtName(t, u, inv, b, c, p, q, n);
    }
    hide SameAt;
    ShapeFromMaps(a1, b1, a2, b2, built, d);
    assert (exists x, y :: Confused(t, u, inv, x, y)) <==> exists n :: ConfusedAt(t, u, inv, n) by {
      if x, y :| Confused(t, u, inv, x, y) { assert ConfusedAt(t, u, inv, x.streamName); }
    }
  }

  lemma SameRecords(t: Topology, u: Topology, inv: Option<Inventory>, b: Plan, c: Plan, p: Plan, q: Plan,
                    built: Delta, d: Delta)
    requires Made(t, inv, b, p) && Made(u, inv, c, q) && DeltaOf(b, c, built) && DeltaOf(p, q, d)
    ensures built.dnsAdded == d.dnsAdded && built.dnsRemoved == d.dnsRemoved && built.dnsChanged == d.dnsChanged
  {
    assert p.dns == b.dns && q.dns == c.dns;
    hide Made, IsNewRecord, IsRetargeted, StreamsDelta;
    StrictUnique(built.dnsAdded, d.dnsAdded, RecordName);
    StrictUnique(built.dnsRemoved, d.dnsRemoved, RecordName);
    StrictUnique(built.dnsChanged, d.dnsChanged, ChangeName);
  }

  // ---- two topologies where they show ----

  function Passenger(dot: string, id: string, part: string): Inventory { Inventory(dot, [Cabinet(id, part, "")]) }

  lemma TwoPartsAttach(dot: string, d: string, e: string, z: string, f: string, id: string, p: Plan)
    requires d != z && e != f && FlatPartitions(TwoParts(dot, d, e, z, f)) && PlanOf(TwoParts(dot, d, e, z, f), p)
    ensures AttachOk(p.streams, p.dot, TwoParts(dot, d, e, z, f), Passenger(dot, id, e))
    ensures AttachOk(p.streams, p.dot, TwoParts(dot, d, e, z, f), Passenger(dot, id, f))
  {
    var t := TwoParts(dot, d, e, z, f);
    PlanFacts(t, p);
    assert Owns(t, d, e) && Owns(t, z, f);
    hide PlanOf, HasRegional, PartitionStreamName;
    PartitionHasStream(t, p, d, e);
    PartitionHasStream(t, p, z, f);
  }

  lemma DistrictShows(dot: string, d: string, z: string, e: string)
    requires Token(d) && Token(z) && d != z
    ensures PartitionStreamName(dot, d, e) != PartitionStreamName(dot, z, e)
  {
    var head, x, y, tail := "VIKASA_" + Sanitize(dot) + "_", Sanitize(d), Sanitize(z), "_" + Sanitize(e);
    assert PartitionStreamName(dot, d, e) == head + (x + tail) && PartitionStreamName(dot, z, e) == head + (y + tail);
    if head + (x + tail) == head + (y + tail) {
      assert (head + (x + tail))[|head|..] == x + tail && (head + (y + tail))[|head|..] == y + tail;
      assert |x| == |y| && (x + tail)[..|x|] == x && (y + tail)[..|y|] == y;
      SanitizeInjective(d, z);
    }
  }

  /** Where the district ends and the partition begins does not show. */
  lemma SeamIsHidden(dot: string, a: string, b: string, c: string)
    ensures PartitionStreamName(dot, a, b + "-" + c) == PartitionStreamName(dot, a + "-" + b, c)
  {
    SanitizeConcat(b + "-", c);
    SanitizeConcat(b, "-");
    SanitizeConcat(a + "-", b);
    SanitizeConcat(a, "-");
    assert Sanitize("-") == "_";
    hide Sanitize;
    var A, B, C := Sanitize(a), Sanitize(b), Sanitize(c);
    assert A + "_" + (B + "_" + C) == (A + "_" + B) + "_" + C;
  }

  /** Partition b-c of a beside c of z, and then c of a-b beside b-c of z. */
  function Earlier(dot: string, a: string, b: string, c: string, z: string): Topology
  {
    TwoParts(dot, a, b + "-" + c, z, c)
  }

  function Later(dot: string, a: string, b: string, c: string, z: string): Topology
  {
    TwoParts(dot, a + "-" + b, c, z, b + "-" + c)
  }

  lemma RegroupedAreFine(dot: string, a: string, b: string, c: string, z: string)
    requires Token(dot) && Token(a) && Token(b) && Token(c) && Token(z) && z != a && z != a + "-" + b
    ensures var t, u := Earlier(dot, a, b, c, z), Later(dot, a, b, c, z);
            && Validate(t) && Buildable(t) && FlatPartitions(t) && CentralReady(t)
            && Validate(u) && Buildable(u) && FlatPartitions(u) && CentralReady(u)
  {
    var d, e := a + "-" + b, b + "-" + c;
    assert Token(d);
    PlainIds(b, c);
    SeamIsHidden(dot, a, b, c);
    DistrictShows(dot, d, z, c);
    DistrictShows(dot, a, z, e);
    assert |LeafDNSName(dot, e)| > |LeafDNSName(dot, c)|;
    hide Validate, Buildable, FlatPartitions, CentralReady, PartitionStreamName, LeafDNSName, TwoParts, Token,
      PartitionId;
    TwoPartsAreValid(dot, a, e, z, c);
    TwoPartsBuild(dot, a, e, z, c);
    TwoPartsAreValid(dot, d, c, z, e);
    TwoPartsBuild(dot, d, c, z, e);
  }

  lemma RegroupedConfuse(dot: string, a: string, b: string, c: string, z: string, id: string)
    requires z != a && z != a + "-" + b && b + "-" + c != c
    requires CentralReady(Earlier(dot, a, b, c, z)) && CentralReady(Later(dot, a, b, c, z))
    ensures var t, u, v := Earlier(dot, a, b, c, z), Later(dot, a, b, c, z), Passenger(dot, id, b + "-" + c);
            exists x, y :: Confused(t, u, Some(v), x, y)
  {
    var d, e := a + "-" + b, b + "-" + c;
    var t, u, v := Earlier(dot, a, b, c, z), Later(dot, a, b, c, z), Passenger(dot, id, e);
    SeamIsHidden(dot, a, b, c);
    hide PartitionStreamName;
    var x, y := Part(a, e, "c", PartitionStreamName(dot, a, e)), Part(d, c, "c", PartitionStreamName(dot, d, c));
    TwoPartsEntries(dot, a, e, z, c, x);
    TwoPartsEntries(dot, d, c, z, e, y);
    hide Entry;
    var k := Cabinet(id, e, "");
    assert v.cabinets[0] == k && k in v.cabinets && BufferSource(k) in Aboard(Some(v), x.id);
    assert BufferSource(k) in Aboard(Some(v), x.id) + Aboard(Some(v), y.id);
    assert Confused(t, u, Some(v), x, y);
  }

  lemma RegroupedAttach(dot: string, a: string, b: string, c: string, z: string, id: string, p: Plan, q: Plan)
    requires z != a && z != a + "-" + b && b + "-" + c != c && id != ""
    requires FlatPartitions(Earlier(dot, a, b, c, z)) && PlanOf(Earlier(dot, a, b, c, z), p)
    requires FlatPartitions(Later(dot, a, b, c, z)) && PlanOf(Later(dot, a, b, c, z), q)
    ensures var t, u, v := Earlier(dot, a, b, c, z), Later(dot, a, b, c, z), Passenger(dot, id, b + "-" + c);
            Loaded(v) && AttachOk(p.streams, p.dot, t, v) && AttachOk(q.streams, q.dot, u, v)
  {
    hide PlanOf, FlatPartitions, AttachOk, TwoParts;
    TwoPartsAttach(dot, a, b + "-" + c, z, c, id, p);
    TwoPartsAttach(dot, a + "-" + b, c, z, b + "-" + c, id, q);
    assert |b + "-" + c| > 0;
  }

  /**
    One cabinet is enough: it stays with partition b-c, whose stream name another partition takes
    over, and the comparison shows a change that is not one of placement.
   */
  lemma CabinetShows(dot: string, a: string, b: string, c: string, z: string, id: string,
                     p: Plan, q: Plan, pa: Plan, qa: Plan, built: Delta, d: Delta)
    requires Token(dot) && Token(a) && Token(b) && Token(c) && Token(z) && z != a && z != a + "-" + b && id != ""
    requires PlanOf(Earlier(dot, a, b, c, z), p) && PlanOf(Later(dot, a, b, c, z), q)
    ensures var t, u, v := Earlier(dot, a, b, c, z), Later(dot, a, b, c, z), Passenger(dot, id, b + "-" + c);
            && Validate(t) && Buildable(t) && Validate(u) && Buildable(u)
            && Loaded(v) && AttachOk(p.streams, p.dot, t, v) && AttachOk(q.streams, q.dot, u, v)
            && (Made(t, Some(v), p, pa) && Made(u, Some(v), q, qa) && DeltaOf(p, q, built) && DeltaOf(pa, qa, d) ==>
                Names(d.modified, MoveName) != Names(built.modified, MoveName))
  {
    var t, u, v := Earlier(dot, a, b, c, z), Later(dot, a, b, c, z), Passenger(dot, id, b + "-" + c);
    PlainIds(b, c);
    RegroupedAreFine(dot, a, b, c, z);
    hide Validate, Buildable, FlatPartitions, CentralReady, PlanOf, AttachOk, Made, DeltaOf, Confused, TwoParts,
      Token, Earlier, Later, Passenger;
    RegroupedAttach(dot, a, b, c, z, id, p, q);
    RegroupedConfuse(dot, a, b, c, z, id);
    if Made(t, Some(v), p, pa) && Made(u, Some(v), q, qa) && DeltaOf(p, q, built) && DeltaOf(pa, qa, d) {
      CabinetsShowExactly(t, u, Some(v), p, q, pa, qa, built, d);
    }
  }
}

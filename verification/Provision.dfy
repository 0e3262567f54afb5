/**
  What a plan provisions, read off its own streams, sources and records: where each stream is, how
  long it keeps what, what leaves through the DMZ, and which names a cabinet dials.
 */
module Provision {
  import opened Basics
  import opened Text
  import opened Naming
  import opened Sorting
  import opened Topology
  import opened Plan
  import A = Accounts

  // ---- streams ----

  /** The cluster is defined and the domain is its own. */
  ghost predicate Located(t: Topology, cluster: string, domain: string)
  {
    cluster in t.cluster && t.cluster[cluster].jsDomain == Some(domain)
  }

  /** A partition's stream is where the partition is. */
  ghost predicate AtPartition(t: Topology, s: Stream)
  {
    exists d, q :: Owns(t, d, q)
      && s.name == PartitionStreamName(t.dot, d, q) && t.district[d].partition[q].cluster == Some(s.cluster)
  }

  ghost predicate AtCentral(t: Topology, s: Stream)
  {
    && (exists d, q :: Owns(t, d, q) && s.name == CentralShardStreamName(t.dot, d, q))
    && t.central.Some? && t.central.value.cluster == Some(s.cluster)
    && s.replicas == (if t.central.value.replicas.Some? then t.central.value.replicas.value else 3)
  }

  ghost predicate AtDmz(t: Topology, s: Stream)
  {
    && s.name == DMZStreamName(t.dot) && t.dmz.Some? && t.dmz.value.cluster == Some(s.cluster)
    && s.replicas == (if t.dmz.value.replicas.Some? then t.dmz.value.replicas.value else 3)
  }

  lemma StreamPlacement(t: Topology, p: Plan, s: Stream)
    requires PlanOf(t, p) && s in p.streams
    ensures Located(t, s.cluster, s.jsDomain)
    ensures match s.tier
            case RegionalTier => AtPartition(t, s) && s.replicas == 3
            case CentralTier => AtCentral(t, s)
            case DMZTier => AtDmz(t, s)
  {
    hide PlanOf, PartitionStreamName, CentralShardStreamName, DMZStreamName;
    NothingElse(t, p, s);
    match s.tier {
      case RegionalTier =>
        var x :| Entry(t, x) && Placed(t, x) && s == RegionalStream(t, x);
        assert Owns(t, x.district, x.id);
      case CentralTier =>
        var x :| Entry(t, x) && Placed(t, x) && s == Shard(t, x);
        assert Owns(t, x.district, x.id);
      case DMZTier =>
    }
  }

  /** A shard draws on the stream of its partition, where that is, whole and unchanged, and on nothing else. */
  lemma ShardDrawsOnPartition(t: Topology, p: Plan, s: Stream)
    requires PlanOf(t, p) && s in p.streams && s.tier.CentralTier?
    ensures exists d, q, domain :: DrawsOn(t, s, d, q, domain)
  {
    hide PlanOf, PartitionStreamName, CentralShardStreamName;
    NothingElse(t, p, s);
    var x :| Entry(t, x) && Placed(t, x) && s == Shard(t, x);
    assert DrawsOn(t, s, x.district, x.id, JSDomain(t, x.cluster));
  }

  ghost predicate DrawsOn(t: Topology, s: Stream, d: string, q: string, domain: string)
  {
    && Owns(t, d, q) && s.name == CentralShardStreamName(t.dot, d, q)
    && t.district[d].partition[q].cluster.Some? && Located(t, t.district[d].partition[q].cluster.value, domain)
    && s.sources == [Source(PartitionStreamName(t.dot, d, q), domain, "", "", "")]
  }

  /** A Go duration of one unit. */
  function Seconds(s: string): Option<nat>
  {
    if |s| < 2 || !AllDigits(s[..|s| - 1]) then None
    else
      var n, unit := NumberOf(s[..|s| - 1]), s[|s| - 1];
      if unit == 'h' then Some(3600 * n)
      else if unit == 'm' then Some(60 * n)
      else if unit == 's' then Some(n)
      else None
  }

  lemma DurationsInUse()
    ensures Seconds("6h") == Some(21600) && Seconds("15m") == Some(900)
    ensures Seconds("1h") == Some(3600) && Seconds("5m") == Some(300)
  {
    assert "6h"[..1] == "6" && "15m"[..2] == "15" && "1h"[..1] == "1" && "5m"[..1] == "5";
    assert "6"[..0] == "" && "15"[..1] == "1" && "1"[..0] == "" && "5"[..0] == "";
  }

  /**
    Central routes and keeps least, the DMZ more, the regions most. Only the DMZ dedupes, and within
    the time it keeps messages, as NATS demands; only it republishes, everything and as it is.
   */
  lemma StreamRetention(t: Topology, p: Plan, s: Stream)
    requires PlanOf(t, p) && s in p.streams
    ensures match s.tier
            case RegionalTier => Seconds(s.maxAge) == Some(21600) && s.maxBytes == 50 * 1024 * 1024 * 1024
            case CentralTier => Seconds(s.maxAge) == Some(900) && s.maxBytes == 20 * 1024 * 1024 * 1024
            case DMZTier => Seconds(s.maxAge) == Some(3600) && s.maxBytes == 10 * 1024 * 1024 * 1024
    ensures s.duplicates != "" <==> s.tier.DMZTier?
    ensures s.duplicates != "" ==> Seconds(s.duplicates).Some? && Seconds(s.duplicates).value <= Seconds(s.maxAge).value
    ensures s.republishSource == s.republishDest == (if s.tier.DMZTier? then "vikasa.>" else "")
  {
    hide PlanOf, PartitionStreamName, CentralShardStreamName, DMZStreamName, Seconds;
    DurationsInUse();
    NothingElse(t, p, s);
  }

  predicate NameChar(c: char) { 'A' <= c <= 'Z' || '0' <= c <= '9' || c == '_' }

  predicate LegalName(s: string) { s != "" && forall c <- s :: NameChar(c) }

  lemma SanitizedIsLegal(s: string)
    requires Token(s)
    ensures LegalName(Sanitize(s))
  {
    forall c | c in Sanitize(s) ensures NameChar(c) {
      var i :| 0 <= i < |s| && Sanitize(s)[i] == c;
      assert s[i] in s;
    }
  }

  lemma {:induction false} JoinedIsLegal(parts: seq<string>)
    requires parts != [] && forall q <- parts :: Token(q)
    ensures LegalName(Sanitize(Join(parts, '/')))
  {
    SanitizedIsLegal(parts[0]);
    if |parts| > 1 {
      forall q | q in parts[1..] ensures Token(q) { }
      JoinedIsLegal(parts[1..]);
      SanitizeConcat(parts[0] + ['/'], Join(parts[1..], '/'));
      SanitizeConcat(parts[0], ['/']);
      assert Sanitize(['/']) == "_";
    }
  }

  lemma PartitionIsLegal(id: string)
    requires PartitionId(id)
    ensures LegalName(Sanitize(id))
  {
    JoinSplit(id, '/');
    JoinedIsLegal(Split(id, '/'));
  }

  /** No stream name has a character NATS would refuse in one. */
  lemma StreamNamesAreLegal(t: Topology, p: Plan, s: Stream)
    requires Validate(t) && PlanOf(t, p) && s in p.streams
    ensures LegalName(s.name) && "VIKASA_" <= s.name
  {
    hide PlanOf, Sanitize, PartitionId, LegalName;
    StreamPlacement(t, p, s);
    SanitizedIsLegal(t.dot);
    var d, q := "", "";
    if !s.tier.DMZTier? {
      if s.tier.RegionalTier? {
        d, q :| Owns(t, d, q) && s.name == PartitionStreamName(t.dot, d, q);
      } else {
        d, q :| Owns(t, d, q) && s.name == CentralShardStreamName(t.dot, d, q);
      }
      assert ValidDistrict(t.dot, d, t.district[d]);
      SanitizedIsLegal(d);
      PartitionIsLegal(q);
      hide Validate;
      NamesOfLegal(t.dot, d, q);
    } else {
      hide Validate;
      DmzOfLegal(t.dot);
    }
  }

  lemma NamesOfLegal(dot: string, d: string, q: string)
    requires LegalName(Sanitize(dot)) && LegalName(Sanitize(d)) && LegalName(Sanitize(q))
    ensures LegalName(PartitionStreamName(dot, d, q)) && "VIKASA_" <= PartitionStreamName(dot, d, q)
    ensures LegalName(CentralShardStreamName(dot, d, q)) && "VIKASA_" <= CentralShardStreamName(dot, d, q)
  {
    hide Sanitize;
    assert PartitionStreamName(dot, d, q) == "VIKASA_" + (Sanitize(dot) + "_" + PartitionSuffix(d, q));
    assert CentralShardStreamName(dot, d, q) == "VIKASA_" + (Sanitize(dot) + "_CENTRAL_" + PartitionSuffix(d, q));
  }

  lemma DmzOfLegal(dot: string)
    requires LegalName(Sanitize(dot))
    ensures LegalName(DMZStreamName(dot)) && "VIKASA_" <= DMZStreamName(dot)
  {
    hide Sanitize;
    assert DMZStreamName(dot) == "VIKASA_" + (Sanitize(dot) + "_DMZ");
  }

  // ---- what leaves through the DMZ ----

  /** The subject is in the consumer's part of the public space, or in a peer's. */
  predicate PublicFor(dot: string, consumer: string, subject: string)
  {
    "vikasa." + dot + ".share." + consumer + "." <= subject || "vikasa.peer." + dot + "." <= subject
  }

  /**
    Deny by default: a source of the DMZ stream takes what some share names, from the space of the
    district whose shard it reads, and puts it where that share says, in public space.
   */
  lemma EgressIsConfined(t: Topology, p: Plan, dmz: Stream, src: Source) returns (s: Share, x: Part)
    requires Validate(t) && PlanOf(t, p) && dmz in p.streams && dmz.tier.DMZTier? && src in dmz.sources
    ensures s in A.Shares(t) && s.from == Some(src.transformSource) && s.public == Some(src.transformDest)
    ensures s.consumer.Some? && PublicFor(t.dot, s.consumer.value, src.transformDest)
    ensures Entry(t, x) && src.name == CentralShardStreamName(t.dot, x.district, x.id)
    ensures UnderPrefix(src.transformSource, SubjectSpace(t.dot, x.district, t.district[x.district].subjectPrefix))
    ensures src.filter == "" && t.central.Some? && t.central.value.cluster.Some?
    ensures Located(t, t.central.value.cluster.value, src.domain)
  {
    var parts, streams :| PlanFrom(t, parts, streams, p);
    hide CentralShardStreamName, Entry, UnderPrefix, DnsOf, PartsOf, Shards, Regionals, DmzSources, ValidSubjectString;
    DmzAmong(t, parts, streams, p, dmz);
    var choice :| DmzFrom(t, parts, choice, streams);
    OnlyShares(t, parts, t.dmz.value.shares, choice, src);
    var z: Share, y: Part :| z in t.dmz.value.shares && y in parts && Pulls(t, z, y, src);
    s, x := z, y;
    assert ValidShare(t.dot, s);
  }

  // ---- the names cabinets dial ----

  /** The records are just the partitions': each by its own name, to the endpoint of its cluster. */
  lemma RecordsAreLeaves(t: Topology, p: Plan, r: DNSRecord)
    requires PlanOf(t, p)
    ensures r in p.dns <==> exists x :: Entry(t, x) && IsLeafOf(t, x, r)
    ensures StrictBy(p.dns, RecordName)
  {
    var parts, dmz :| PlanFrom(t, parts, dmz, p);
    hide Entry, LeafDNSName, StrictBy, DmzOf, Leaves, IsLeafOf, Placed, LeafRecord, Shards, Regionals;
    SameMembers(p.dns, Leaves(t, parts));
    if r in p.dns {
      var i := LeafAt(t, parts, r);
      assert parts[i] in parts;
      LeafIs(t, parts[i], r);
    }
    if x :| Entry(t, x) && IsLeafOf(t, x, r) {
      var i :| 0 <= i < |parts| && parts[i] == x;
      LeafIs(t, x, r);
      LeafIn(t, parts, i);
    }
  }

  lemma LeafAt(t: Topology, parts: seq<Part>, r: DNSRecord) returns (i: nat)
    requires AllPlaced(t, parts) && r in Leaves(t, parts)
    ensures i < |parts| && r == LeafRecord(t, parts[i])
  {
    i :| 0 <= i < |parts| && Leaves(t, parts)[i] == r;
  }

  lemma LeafIn(t: Topology, parts: seq<Part>, i: nat)
    requires AllPlaced(t, parts) && i < |parts|
    ensures LeafRecord(t, parts[i]) in Leaves(t, parts)
  {
    assert Leaves(t, parts)[i] == LeafRecord(t, parts[i]);
  }

  lemma LeafIs(t: Topology, x: Part, r: DNSRecord)
    requires Entry(t, x) && Placed(t, x)
    ensures IsLeafOf(t, x, r) <==> r == LeafRecord(t, x)
  {
  }

  ghost predicate IsLeafOf(t: Topology, x: Part, r: DNSRecord)
  {
    && r.name == LeafDNSName(t.dot, x.id)
    && Owns(t, x.district, x.id) && t.district[x.district].partition[x.id].cluster == Some(x.cluster)
    && x.cluster in t.cluster && t.cluster[x.cluster].leafEndpoint == Some(r.target)
  }

  /** A label of letters, digits and hyphens that starts with no hyphen. */
  predicate LabelStart(s: string) { s != "" && s[0] != '-' && forall c <- s :: IdStart(c) || c == '-' }

  /** A host name label: it does not end in one either. */
  predicate HostLabel(s: string) { LabelStart(s) && s[|s| - 1] != '-' }

  lemma LowerToken(s: string)
    requires forall c <- s :: IdStart(c) || c == '-' || c == '/'
    ensures Lower(s) == s
  {
    forall i | 0 <= i < |s| ensures Lower(s)[i] == s[i] { assert s[i] in s; }
  }

  lemma {:induction false} PartitionChars(parts: seq<string>)
    requires parts != [] && forall q <- parts :: Token(q)
    ensures Join(parts, '/') != "" && forall c <- Join(parts, '/') :: IdStart(c) || c == '-' || c == '/'
    ensures Join(parts, '/')[|Join(parts, '/')| - 1] != '/'
  {
    assert parts[0] in parts && parts[0][|parts[0]| - 1] in parts[0];
    if |parts| > 1 {
      forall q | q in parts[1..] ensures Token(q) { }
      PartitionChars(parts[1..]);
    }
  }

  /**
    A leaf name has four labels of letters, digits and hyphens, none of which starts with a hyphen.
    It is a host name exactly if neither the partition id nor the dot ends in a hyphen, which the id
    patterns allow.
   */
  lemma LeafNameIsLegal(dot: string, id: string)
    requires Token(dot) && PartitionId(id)
    ensures var labels := Split(LeafDNSName(dot, id), '.');
            && |labels| == 4 && labels[1..] == ["nats", "vikasa", dot]
            && (forall l <- labels :: LabelStart(l))
            && id != "" && ((forall l <- labels :: HostLabel(l)) <==> id[|id| - 1] != '-' && dot[|dot| - 1] != '-')
  {
    JoinSplit(id, '/');
    PartitionChars(Split(id, '/'));
    LowerToken(dot);
    LowerToken(id);
    var first := FirstLabel(dot, id);
    assert HostLabel(dot) <==> dot[|dot| - 1] != '-';
    FixedLabels();
    hide HostLabel, LabelStart;
    assert LeafDNSName(dot, id) == first + "." + ("nats" + "." + ("vikasa" + "." + dot));
    hide LeafDNSName;
    LeafLabels(first, dot);
    var labels := [first, "nats", "vikasa", dot];
    assert labels[1..] == ["nats", "vikasa", dot];
    assert forall l :: l in labels <==> l == first || l == "nats" || l == "vikasa" || l == dot;
  }

  lemma FirstLabel(dot: string, id: string) returns (first: string)
    requires Token(dot) && id != "" && id[|id| - 1] != '/' && forall c <- id :: IdStart(c) || c == '-' || c == '/'
    ensures first == "leaf-" + dot + "-" + SlashToDash(id)
    ensures LabelStart(first) && (HostLabel(first) <==> id[|id| - 1] != '-') && '.' !in first && LabelStart(dot)
  {
    var seg := SlashToDash(id);
    first := "leaf-" + dot + "-" + seg;
    forall c | c in first ensures IdStart(c) || c == '-' {
      if c in seg {
        var i :| 0 <= i < |seg| && seg[i] == c;
        assert id[i] in id;
      }
    }
    assert first[|first| - 1] == seg[|seg| - 1] && first[0] == 'l';
  }

  lemma FixedLabels()
    ensures HostLabel("nats") && HostLabel("vikasa")
  {
  }

  lemma LeafLabels(first: string, dot: string)
    requires '.' !in first && Token(dot)
    ensures Split(first + "." + ("nats" + "." + ("vikasa" + "." + dot)), '.') == [first, "nats", "vikasa", dot]
  {
    assert '.' !in "nats" && '.' !in "vikasa" && '.' !in dot;
    A.SplitThree(first, "nats", "vikasa", dot);
    SplitFree(dot, '.');
    assert [first, "nats", "vikasa"] + [dot] == [first, "nats", "vikasa", dot];
  }
}

/** internal/topology: the per-DOT deployment topology, its checks and the partition index. */
module Topology {
  import opened Basics
  import opened Naming

  datatype Substrate = Unset | Kubernetes | BareMetal

  datatype Cluster = Cluster(jsDomain: Option<string>, leafEndpoint: Option<string>, substrate: Substrate)

  datatype Partition = Partition(cluster: Option<string>)

  datatype District = District(partition: map<string, Partition>, subjectPrefix: Option<string>)

  datatype Central = Central(cluster: Option<string>, replicas: Option<nat>)

  /** One internal subject (`from`) shown to one consumer under a public subject. */
  datatype Share = Share(consumer: Option<string>, from: Option<string>, public: Option<string>)

  datatype DMZ = DMZ(cluster: Option<string>, replicas: Option<nat>, shares: seq<Share>)

  datatype Topology = Topology(
    dot: string,
    cluster: map<string, Cluster>,
    district: map<string, District>,
    central: Option<Central>,
    dmz: Option<DMZ>)

  // ---- Validate ----

  predicate EndsInSpace(s: string) { |s| >= 2 && s[|s| - 2..] == ".>" }

  predicate ValidCluster(id: string, c: Cluster)
  {
    && Token(id)
    && c.jsDomain.Some? && Token(c.jsDomain.value)
    && c.leafEndpoint.Some? && c.leafEndpoint.value != ""
    && c.substrate != Unset
  }

  predicate ValidDistrict(dot: string, id: string, d: District)
  {
    && Token(id)
    && (forall p <- d.partition :: PartitionId(p))
    && (d.subjectPrefix.Some? ==>
          var prefix := d.subjectPrefix.value;
          ValidSubjectString(prefix) && Anchor(dot) <= prefix && EndsInSpace(prefix))
  }

  predicate ValidReplicas(r: Option<nat>) { r.Some? ==> 1 <= r.value <= 5 }

  /** A public subject in the share space must lie in its own consumer's subtree. */
  predicate ValidShare(dot: string, s: Share)
  {
    && s.consumer.Some? && Token(s.consumer.value)
    && s.from.Some? && ValidSubjectString(s.from.value)
    && s.public.Some? && ValidSubjectString(s.public.value)
    && (if ShareSpace(dot) <= s.public.value then ShareSpace(dot) + s.consumer.value + "." <= s.public.value
        else PeerSpace(dot) <= s.public.value)
  }

  ghost predicate Validate(t: Topology)
  {
    && Token(t.dot)
    && (forall id <- t.cluster :: ValidCluster(id, t.cluster[id]))
    && (forall id <- t.district :: ValidDistrict(t.dot, id, t.district[id]))
    && t.central.Some? && t.central.value.cluster.Some? && ValidReplicas(t.central.value.replicas)
    && FlatPartitions(t)
    && (t.dmz.Some? ==>
          && t.dmz.value.cluster.Some? && ValidReplicas(t.dmz.value.replicas)
          && t.dmz.value.shares != []
          && forall s <- t.dmz.value.shares :: ValidShare(t.dot, s))
  }

  // ---- PartitionIndex ----

  predicate Owns(t: Topology, district: string, part: string)
  {
    district in t.district && part in t.district[district].partition
  }

  /** No partition id is used by two districts. */
  ghost predicate FlatPartitions(t: Topology)
  {
    forall d, e, p :: Owns(t, d, p) && Owns(t, e, p) ==> d == e
  }

  method PartitionIndex(t: Topology) returns (r: Option<map<string, string>>)
    ensures r.Some? <==> FlatPartitions(t)
    ensures r.Some? ==> forall p, d :: p in r.value && r.value[p] == d <==> Owns(t, d, p)
  {
    var idx: map<string, string> := map[];
    var districts := t.district.Keys;
    while districts != {}
      invariant districts <= t.district.Keys
      invariant forall p <- idx :: idx[p] !in districts && Owns(t, idx[p], p)
      invariant forall d, p :: Owns(t, d, p) && d !in districts ==> p in idx && idx[p] == d
    {
      var d :| d in districts;
      districts := districts - {d};
      var before := idx;
      var parts := t.district[d].partition.Keys;
      while parts != {}
        invariant parts <= t.district[d].partition.Keys
        invariant before.Keys <= idx.Keys && forall p <- before :: idx[p] == before[p]
        invariant forall p <- idx :: Owns(t, idx[p], p) && (p in before || (idx[p] == d && p !in parts))
        invariant forall p <- t.district[d].partition :: p !in parts ==> p in idx && idx[p] == d
      {
        var p :| p in parts;
        parts := parts - {p};
        if p in idx {
          assert Owns(t, idx[p], p) && Owns(t, d, p) && idx[p] != d;
          return None;
        }
        idx := idx[p := d];
      }
    }
    return Some(idx);
  }
}

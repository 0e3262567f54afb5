/** internal/plan/diff.go: what changes from one plan to the next. */
module Diff {
  import opened Sorting
  import opened Topology
  import opened Basics
  import opened Plan
  import opened Fleet
  import opened Cabinets

  datatype StreamMove = StreamMove(from: Stream, to: Stream)

  datatype DNSChange = DNSChange(name: string, from: string, to: string)

  datatype Delta = Delta(
    dot: string,
    added: seq<Stream>,
    removed: seq<Stream>,
    moved: seq<StreamMove>,
    modified: seq<StreamMove>,
    dnsAdded: seq<DNSRecord>,
    dnsRemoved: seq<DNSRecord>,
    dnsChanged: seq<DNSChange>)
  {
    function ChangeCount(): nat
    {
      |added| + |removed| + |moved| + |modified| + |dnsAdded| + |dnsRemoved| + |dnsChanged|
    }
  }

  function NameOf(s: Stream): string { s.name }

  function MoveName(m: StreamMove): string { m.to.name }

  function ChangeName(c: DNSChange): string { c.name }

  // ---- comparison ----

  predicate SourceChanged(a: Source, b: Source)
  {
    || a.name != b.name || a.domain != b.domain || a.filter != b.filter
    || a.transformSource != b.transformSource || a.transformDest != b.transformDest
  }

  predicate SourcesChanged(a: seq<Source>, b: seq<Source>)
  {
    |a| != |b| || exists i :: 0 <= i < |a| && SourceChanged(a[i], b[i])
  }

  predicate StreamConfigChanged(a: Stream, b: Stream)
  {
    || a.replicas != b.replicas || a.maxAge != b.maxAge || a.maxBytes != b.maxBytes || a.duplicates != b.duplicates
    || a.republishSource != b.republishSource || a.republishDest != b.republishDest || a.tier != b.tier
    || ((|a.sources| > 0 || |b.sources| > 0) && SourcesChanged(a.sources, b.sources))
  }

  predicate Relocated(a: Stream, b: Stream) { a.cluster != b.cluster || a.jsDomain != b.jsDomain }

  /** The comparison leaves no field out. */
  lemma UnchangedIsEqual(a: Stream, b: Stream)
    requires a.name == b.name
    ensures !Relocated(a, b) && !StreamConfigChanged(a, b) <==> a == b
  {
    if !Relocated(a, b) && !StreamConfigChanged(a, b) {
      assert |a.sources| == |b.sources|;
      forall i | 0 <= i < |a.sources| ensures a.sources[i] == b.sources[i] {
        assert !SourceChanged(a.sources[i], b.sources[i]);
      }
    }
  }

  // ---- indexes ----

  /** The last of several entries with one name counts. */
  function Index(ss: seq<Stream>): (m: map<string, Stream>)
    ensures forall n <- m :: m[n].name == n && m[n] in ss
    ensures forall s <- ss :: s.name in m
  {
    if ss == [] then map[] else Index(ss[..|ss| - 1])[ss[|ss| - 1].name := ss[|ss| - 1]]
  }

  function IndexRecords(rs: seq<DNSRecord>): (m: map<string, DNSRecord>)
    ensures forall n <- m :: m[n].name == n && m[n] in rs
    ensures forall r <- rs :: r.name in m
  {
    if rs == [] then map[] else IndexRecords(rs[..|rs| - 1])[rs[|rs| - 1].name := rs[|rs| - 1]]
  }

  method IndexStreams(ss: seq<Stream>) returns (m: map<string, Stream>)
    ensures m == Index(ss)
  {
    m := map[];
    for i := 0 to |ss|
      invariant m == Index(ss[..i])
    {
      assert ss[..i + 1][..i] == ss[..i];
      m := m[ss[i].name := ss[i]];
    }
    assert ss[..|ss|] == ss;
  }

  method IndexDNS(rs: seq<DNSRecord>) returns (m: map<string, DNSRecord>)
    ensures m == IndexRecords(rs)
  {
    m := map[];
    for i := 0 to |rs|
      invariant m == IndexRecords(rs[..i])
    {
      assert rs[..i + 1][..i] == rs[..i];
      m := m[rs[i].name := rs[i]];
    }
    assert rs[..|rs|] == rs;
  }

  // ---- the delta of two plans ----

  type Streams = map<string, Stream>
  type Records = map<string, DNSRecord>

  ghost predicate IsAdded(a: Streams, b: Streams, s: Stream) { s.name in b && b[s.name] == s && s.name !in a }

  ghost predicate InBoth(a: Streams, b: Streams, m: StreamMove)
  {
    m.to.name in a && m.to.name in b && a[m.to.name] == m.from && b[m.to.name] == m.to
  }

  ghost predicate IsMoved(a: Streams, b: Streams, m: StreamMove) { InBoth(a, b, m) && Relocated(m.from, m.to) }

  ghost predicate IsModified(a: Streams, b: Streams, m: StreamMove)
  {
    InBoth(a, b, m) && !Relocated(m.from, m.to) && StreamConfigChanged(m.from, m.to)
  }

  ghost predicate IsNewRecord(a: Records, b: Records, r: DNSRecord) { r.name in b && b[r.name] == r && r.name !in a }

  ghost predicate IsRetargeted(a: Records, b: Records, c: DNSChange)
  {
    c.name in a && c.name in b && a[c.name].target == c.from && b[c.name].target == c.to && c.from != c.to
  }

  ghost predicate StreamsChange(a: Streams, b: Streams, added: seq<Stream>, removed: seq<Stream>,
                                moved: seq<StreamMove>, modified: seq<StreamMove>)
  {
    && StrictBy(added, NameOf) && (forall s :: s in added <==> IsAdded(a, b, s))
    && StrictBy(removed, NameOf) && (forall s :: s in removed <==> IsAdded(b, a, s))
    && StrictBy(moved, MoveName) && (forall m :: m in moved <==> IsMoved(a, b, m))
    && StrictBy(modified, MoveName) && (forall m :: m in modified <==> IsModified(a, b, m))
  }

  ghost predicate RecordsChange(a: Records, b: Records, added: seq<DNSRecord>, removed: seq<DNSRecord>,
                                changed: seq<DNSChange>)
  {
    && StrictBy(added, RecordName) && (forall r :: r in added <==> IsNewRecord(a, b, r))
    && StrictBy(removed, RecordName) && (forall r :: r in removed <==> IsNewRecord(b, a, r))
    && StrictBy(changed, ChangeName) && (forall c :: c in changed <==> IsRetargeted(a, b, c))
  }

  ghost predicate StreamsDelta(a: Streams, b: Streams, d: Delta)
  {
    StreamsChange(a, b, d.added, d.removed, d.moved, d.modified)
  }

  ghost predicate RecordsDelta(a: Records, b: Records, d: Delta)
  {
    RecordsChange(a, b, d.dnsAdded, d.dnsRemoved, d.dnsChanged)
  }

  ghost predicate DeltaOf(p: Plan, q: Plan, d: Delta)
  {
    && d.dot == q.dot
    && StreamsDelta(Index(p.streams), Index(q.streams), d)
    && RecordsDelta(IndexRecords(p.dns), IndexRecords(q.dns), d)
  }

  /** Whatever order the maps are walked in, the result is the same. */
  lemma DeltaIsUnique(p: Plan, q: Plan, d: Delta, e: Delta)
    requires DeltaOf(p, q, d) && DeltaOf(p, q, e)
    ensures d == e
  {
    hide Index, IndexRecords, IsAdded, IsMoved, IsModified, IsNewRecord, IsRetargeted;
    StrictUnique(d.added, e.added, NameOf);
    StrictUnique(d.removed, e.removed, NameOf);
    StrictUnique(d.moved, e.moved, MoveName);
    StrictUnique(d.modified, e.modified, MoveName);
    StrictUnique(d.dnsAdded, e.dnsAdded, RecordName);
    StrictUnique(d.dnsRemoved, e.dnsRemoved, RecordName);
    StrictUnique(d.dnsChanged, e.dnsChanged, ChangeName);
  }

  // ---- the delta as a patch ----

  function Targets(ms: seq<StreamMove>): (r: seq<Stream>)
    ensures |r| == |ms|
  {
    seq(|ms|, i requires 0 <= i < |ms| => ms[i].to)
  }

  function Retargets(cs: seq<DNSChange>): (r: seq<DNSRecord>)
    ensures |r| == |cs|
  {
    seq(|cs|, i requires 0 <= i < |cs| => DNSRecord(cs[i].name, cs[i].to))
  }

  function Patched(a: Streams, d: Delta): Streams
  {
    a - (set s <- d.removed :: s.name) + Index(d.added) + Index(Targets(d.moved)) + Index(Targets(d.modified))
  }

  function PatchedRecords(a: Records, d: Delta): Records
  {
    a - (set r <- d.dnsRemoved :: r.name) + IndexRecords(d.dnsAdded) + IndexRecords(Retargets(d.dnsChanged))
  }

  ghost predicate Keyed(a: Streams) { forall n <- a :: a[n].name == n }

  ghost predicate KeyedRecords(a: Records) { forall n <- a :: a[n].name == n }

  lemma TargetsAre(ms: seq<StreamMove>, s: Stream)
    ensures s in Targets(ms) <==> exists m <- ms :: m.to == s
  {
    if m :| m in ms && m.to == s {
      var i :| 0 <= i < |ms| && ms[i] == m;
      assert Targets(ms)[i] == s;
    }
  }

  lemma RetargetsAre(cs: seq<DNSChange>, r: DNSRecord)
    ensures r in Retargets(cs) <==> exists c <- cs :: DNSRecord(c.name, c.to) == r
  {
    if c :| c in cs && DNSRecord(c.name, c.to) == r {
      var i :| 0 <= i < |cs| && cs[i] == c;
      assert Retargets(cs)[i] == r;
    }
  }

  /** What a list of moves puts under a name. */
  lemma TargetAt(a: Streams, b: Streams, ms: seq<StreamMove>, n: string)
    requires Keyed(b) && forall m <- ms :: InBoth(a, b, m)
    ensures n in Index(Targets(ms)) <==> exists m <- ms :: m.to.name == n
    ensures n in Index(Targets(ms)) ==> n in b && Index(Targets(ms))[n] == b[n]
  {
    var idx := Index(Targets(ms));
    if n in idx {
      TargetsAre(ms, idx[n]);
    }
    if m :| m in ms && m.to.name == n {
      TargetsAre(ms, m.to);
    }
  }

  /** Patching the old streams with the delta gives the new ones. */
  lemma PatchIsNew(p: Plan, q: Plan, d: Delta)
    requires DeltaOf(p, q, d)
    ensures Patched(Index(p.streams), d) == Index(q.streams)
    ensures PatchedRecords(IndexRecords(p.dns), d) == IndexRecords(q.dns)
  {
    PatchStreams(Index(p.streams), Index(q.streams), d);
    PatchRecords(IndexRecords(p.dns), IndexRecords(q.dns), d);
  }

  lemma PatchStreams(a: Streams, b: Streams, d: Delta)
    requires Keyed(a) && Keyed(b) && StreamsDelta(a, b, d)
    ensures Patched(a, d) == b
  {
    var r := Patched(a, d);
    forall n ensures n in r <==> n in b {
      PatchAt(a, b, d, n);
    }
    forall n | n in b ensures r[n] == b[n] {
      PatchAt(a, b, d, n);
    }
  }

  lemma PatchAt(a: Streams, b: Streams, d: Delta, n: string)
    requires Keyed(a) && Keyed(b) && StreamsDelta(a, b, d)
    ensures n in Patched(a, d) <==> n in b
    ensures n in b ==> Patched(a, d)[n] == b[n]
  {
    hide StrictBy, Relocated, StreamConfigChanged;
    TargetAt(a, b, d.moved, n);
    TargetAt(a, b, d.modified, n);
    AddedAt(a, b, d.added, n);
    AddedAt(b, a, d.removed, n);
    if n in a && n in b {
      var m := StreamMove(a[n], b[n]);
      UnchangedIsEqual(a[n], b[n]);
      assert InBoth(a, b, m);
      assert m in d.moved || m in d.modified || a[n] == b[n];
    }
  }

  lemma AddedAt(a: Streams, b: Streams, added: seq<Stream>, n: string)
    requires Keyed(b) && forall s :: s in added <==> IsAdded(a, b, s)
    ensures n in Index(added) <==> n in b && n !in a
    ensures n in (set s <- added :: s.name) <==> n in b && n !in a
    ensures n in Index(added) ==> Index(added)[n] == b[n]
  {
    if n in b && n !in a { assert IsAdded(a, b, b[n]); }
    if n in Index(added) { assert Index(added)[n] in added; }
  }

  lemma PatchRecords(a: Records, b: Records, d: Delta)
    requires KeyedRecords(a) && KeyedRecords(b) && RecordsDelta(a, b, d)
    ensures PatchedRecords(a, d) == b
  {
    var r := PatchedRecords(a, d);
    forall n ensures n in r <==> n in b {
      PatchRecordAt(a, b, d, n);
    }
    forall n | n in b ensures r[n] == b[n] {
      PatchRecordAt(a, b, d, n);
    }
  }

  lemma PatchRecordAt(a: Records, b: Records, d: Delta, n: string)
    requires KeyedRecords(a) && KeyedRecords(b) && RecordsDelta(a, b, d)
    ensures n in PatchedRecords(a, d) <==> n in b
    ensures n in b ==> PatchedRecords(a, d)[n] == b[n]
  {
    hide StrictBy;
    NewRecordAt(a, b, d.dnsAdded, n);
    NewRecordAt(b, a, d.dnsRemoved, n);
    RetargetAt(a, b, d.dnsChanged, n);
    if n in a && n in b && a[n] != b[n] {
      assert IsRetargeted(a, b, DNSChange(n, a[n].target, b[n].target));
    }
  }

  lemma NewRecordAt(a: Records, b: Records, added: seq<DNSRecord>, n: string)
    requires KeyedRecords(b) && forall r :: r in added <==> IsNewRecord(a, b, r)
    ensures n in IndexRecords(added) <==> n in b && n !in a
    ensures n in (set r <- added :: r.name) <==> n in b && n !in a
    ensures n in IndexRecords(added) ==> IndexRecords(added)[n] == b[n]
  {
    if n in b && n !in a { assert IsNewRecord(a, b, b[n]); }
    if n in IndexRecords(added) { assert IndexRecords(added)[n] in added; }
  }

  lemma RetargetAt(a: Records, b: Records, cs: seq<DNSChange>, n: string)
    requires KeyedRecords(b) && forall c :: c in cs <==> IsRetargeted(a, b, c)
    ensures n in IndexRecords(Retargets(cs)) <==> exists c <- cs :: c.name == n
    ensures n in IndexRecords(Retargets(cs)) ==> n in b && IndexRecords(Retargets(cs))[n] == b[n]
  {
    var idx := IndexRecords(Retargets(cs));
    if n in idx {
      RetargetsAre(cs, idx[n]);
    }
    if c :| c in cs && c.name == n {
      RetargetsAre(cs, DNSRecord(c.name, c.to));
    }
  }

  /** Nothing is counted exactly when the two plans agree. */
  lemma NoChangeIsEqual(p: Plan, q: Plan, d: Delta)
    requires DeltaOf(p, q, d)
    ensures d.ChangeCount() == 0 <==> Index(p.streams) == Index(q.streams) && IndexRecords(p.dns) == IndexRecords(q.dns)
  {
    hide Index, IndexRecords, StreamsChange, RecordsChange, Patched, PatchedRecords;
    PatchIsNew(p, q, d);
    var a, x := Index(p.streams), IndexRecords(p.dns);
    if d.ChangeCount() == 0 {
      EmptyPatch(a, x, d);
    }
    if a == Index(q.streams) && x == IndexRecords(q.dns) {
      SameGivesNone(a, x, d);
    }
  }

  lemma EmptyPatch(a: Streams, x: Records, d: Delta)
    requires d.ChangeCount() == 0
    ensures Patched(a, d) == a && PatchedRecords(x, d) == x
  {
    assert Targets(d.moved) == [] && Targets(d.modified) == [] && Retargets(d.dnsChanged) == [];
  }

  lemma SameGivesNone(a: Streams, x: Records, d: Delta)
    requires StreamsDelta(a, a, d) && RecordsDelta(x, x, d)
    ensures d.ChangeCount() == 0
  {
    hide StrictBy;
    assert d.added != [] ==> IsAdded(a, a, d.added[0]);
    assert d.removed != [] ==> IsAdded(a, a, d.removed[0]);
    assert d.moved != [] ==> IsMoved(a, a, d.moved[0]);
    if d.modified != [] {
      var m := d.modified[0];
      assert IsModified(a, a, m);
      UnchangedIsEqual(m.from, m.to);
    }
    assert d.dnsAdded != [] ==> IsNewRecord(x, x, d.dnsAdded[0]);
    assert d.dnsRemoved != [] ==> IsNewRecord(x, x, d.dnsRemoved[0]);
    assert d.dnsChanged != [] ==> IsRetargeted(x, x, d.dnsChanged[0]);
  }

  // ---- Diff ----

  method Diff(p: Plan, q: Plan) returns (d: Delta)
    ensures DeltaOf(p, q, d)
  {
    hide StreamsChange, RecordsChange;
    var oldS := IndexStreams(p.streams);
    var newS := IndexStreams(q.streams);
    var added, removed, moved, modified := DiffStreams(oldS, newS);
    var oldR := IndexDNS(p.dns);
    var newR := IndexDNS(q.dns);
    var dnsAdded, dnsRemoved, dnsChanged := DiffRecords(oldR, newR);
    d := Delta(q.dot, added, removed, moved, modified, dnsAdded, dnsRemoved, dnsChanged);
  }

  method DiffStreams(a: Streams, b: Streams)
    returns (added: seq<Stream>, removed: seq<Stream>, moved: seq<StreamMove>, modified: seq<StreamMove>)
    requires Keyed(a) && Keyed(b)
    ensures StreamsChange(a, b, added, removed, moved, modified)
  {
    hide IsAdded, IsMoved, IsModified, StrictBy, DistinctKeys;
    added, moved, modified := CompareStreams(a, b);
    removed := OnlyIn(b, a);
    added := SortUnique(added, NameOf);
    removed := SortUnique(removed, NameOf);
    moved := SortUnique(moved, MoveName);
    modified := SortUnique(modified, MoveName);
  }

  method DiffRecords(a: Records, b: Records)
    returns (added: seq<DNSRecord>, removed: seq<DNSRecord>, changed: seq<DNSChange>)
    requires KeyedRecords(a) && KeyedRecords(b)
    ensures RecordsChange(a, b, added, removed, changed)
  {
    hide IsNewRecord, IsRetargeted, StrictBy, DistinctKeys;
    added, changed := CompareRecords(a, b);
    removed := RecordsOnlyIn(b, a);
    added := SortUnique(added, RecordName);
    removed := SortUnique(removed, RecordName);
    changed := SortUnique(changed, ChangeName);
  }

  /** The loop over the new streams. */
  method CompareStreams(a: Streams, b: Streams)
    returns (added: seq<Stream>, moved: seq<StreamMove>, modified: seq<StreamMove>)
    requires Keyed(a) && Keyed(b)
    ensures DistinctKeys(added, NameOf) && forall s :: s in added <==> IsAdded(a, b, s)
    ensures DistinctKeys(moved, MoveName) && forall m :: m in moved <==> IsMoved(a, b, m)
    ensures DistinctKeys(modified, MoveName) && forall m :: m in modified <==> IsModified(a, b, m)
  {
    hide Relocated, StreamConfigChanged;
    added, moved, modified := [], [], [];
    var todo := b.Keys;
    while todo != {}
      invariant todo <= b.Keys
      invariant DistinctKeys(added, NameOf) && forall s :: s in added <==> IsAdded(a, b, s) && s.name !in todo
      invariant DistinctKeys(moved, MoveName) && forall m :: m in moved <==> IsMoved(a, b, m) && m.to.name !in todo
      invariant DistinctKeys(modified, MoveName) && forall m :: m in modified <==>
          IsModified(a, b, m) && m.to.name !in todo
    {
      var n :| n in todo;
      todo := todo - {n};
      var s := b[n];
      if n !in a {
        added := added + [s];
      } else {
        var m := StreamMove(a[n], s);
        if Relocated(a[n], s) {
          moved := moved + [m];
        } else if StreamConfigChanged(a[n], s) {
          modified := modified + [m];
        }
      }
    }
  }

  method OnlyIn(a: Streams, b: Streams) returns (r: seq<Stream>)
    requires Keyed(b)
    ensures DistinctKeys(r, NameOf) && forall s :: s in r <==> IsAdded(a, b, s)
  {
    r := [];
    var todo := b.Keys;
    while todo != {}
      invariant todo <= b.Keys
      invariant DistinctKeys(r, NameOf) && forall s :: s in r <==> IsAdded(a, b, s) && s.name !in todo
    {
      var n :| n in todo;
      todo := todo - {n};
      if n !in a {
        r := r + [b[n]];
      }
    }
  }

  method CompareRecords(a: Records, b: Records) returns (added: seq<DNSRecord>, changed: seq<DNSChange>)
    requires KeyedRecords(a) && KeyedRecords(b)
    ensures DistinctKeys(added, RecordName) && forall r :: r in added <==> IsNewRecord(a, b, r)
    ensures DistinctKeys(changed, ChangeName) && forall c :: c in changed <==> IsRetargeted(a, b, c)
  {
    added, changed := [], [];
    var todo := b.Keys;
    while todo != {}
      invariant todo <= b.Keys
      invariant DistinctKeys(added, RecordName) && forall r :: r in added <==> IsNewRecord(a, b, r) && r.name !in todo
      invariant DistinctKeys(changed, ChangeName) && forall c :: c in changed <==>
          IsRetargeted(a, b, c) && c.name !in todo
    {
      var n :| n in todo;
      todo := todo - {n};
      if n !in a {
        added := added + [b[n]];
      } else if a[n].target != b[n].target {
        changed := changed + [DNSChange(n, a[n].target, b[n].target)];
      }
    }
  }

  method RecordsOnlyIn(a: Records, b: Records) returns (r: seq<DNSRecord>)
    requires KeyedRecords(b)
    ensures DistinctKeys(r, RecordName) && forall x :: x in r <==> IsNewRecord(a, b, x)
  {
    r := [];
    var todo := b.Keys;
    while todo != {}
      invariant todo <= b.Keys
      invariant DistinctKeys(r, RecordName) && forall x :: x in r <==> IsNewRecord(a, b, x) && x.name !in todo
    {
      var n :| n in todo;
      todo := todo - {n};
      if n !in a {
        r := r + [b[n]];
      }
    }
  }

  // ---- for plans with distinct names ----

  lemma {:induction false} IndexOfDistinct(ss: seq<Stream>, s: Stream)
    requires NamesDiffer(ss) && s in ss
    ensures s.name in Index(ss) && Index(ss)[s.name] == s
  {
    var front, last := ss[..|ss| - 1], ss[|ss| - 1];
    if s != last {
      var i :| 0 <= i < |ss| && ss[i] == s;
      assert front[i] == s;
      IndexOfDistinct(front, s);
    }
  }

  /** When names are distinct, the members of the new plan are what the patch produces. */
  lemma PatchedMembers(p: Plan, q: Plan, d: Delta, s: Stream)
    requires DeltaOf(p, q, d) && NamesDiffer(q.streams)
    ensures var r := Patched(Index(p.streams), d); s in q.streams <==> s.name in r && r[s.name] == s
  {
    PatchIsNew(p, q, d);
    if s in q.streams { IndexOfDistinct(q.streams, s); }
  }

  lemma {:induction false} RecordsOfDistinct(rs: seq<DNSRecord>, r: DNSRecord)
    requires DistinctKeys(rs, RecordName) && r in rs
    ensures r.name in IndexRecords(rs) && IndexRecords(rs)[r.name] == r
  {
    var front, last := rs[..|rs| - 1], rs[|rs| - 1];
    if r != last {
      var i :| 0 <= i < |rs| && rs[i] == r;
      assert RecordName(rs[i]) != RecordName(last);
      assert front[i] == r;
      RecordsOfDistinct(front, r);
    }
  }

  lemma {:induction false} IndexInPlace(a: seq<Stream>, b: seq<Stream>)
    requires SamePlaces(a, b)
    ensures Index(a).Keys == Index(b).Keys && forall n :: n in Index(a) ==> SamePlace(Index(a)[n], Index(b)[n])
  {
    hide SamePlace;
    if a != [] {
      IndexInPlace(a[..|a| - 1], b[..|b| - 1]);
      assert SamePlace(a[|a| - 1], b[|b| - 1]);
      SameName(a[|a| - 1], b[|b| - 1]);
    }
  }

  lemma SameName(a: Stream, b: Stream)
    requires SamePlace(a, b)
    ensures a.name == b.name
  {
  }

  /** Diff sees every stream of a plan exactly when no regional name is also a shard's. */
  lemma IndexSeesAll(t: Topology, inv: Option<Inventory>, built: Plan, p: Plan)
    requires Made(t, inv, built, p)
    ensures (forall s <- p.streams :: Index(p.streams)[s.name] == s) <==> !CentralClash(t)
  {
    NamesDifferExactly(t, built);
    MadeNames(t, inv, built, p);
    hide Made, PlanOf, CentralClash, Index;
    var ss := p.streams;
    if NamesDiffer(ss) {
      forall s | s in ss ensures Index(ss)[s.name] == s { IndexOfDistinct(ss, s); }
    }
    if forall s <- ss :: Index(ss)[s.name] == s {
      StrictIsDistinct(ss, Rank);
      forall i, j | 0 <= i < j < |ss| ensures ss[i].name != ss[j].name {
        assert ss[i] in ss && ss[j] in ss && Rank(ss[i]) != Rank(ss[j]);
      }
    }
  }

  ghost predicate PlanInOrder(p: Plan)
  {
    StrictBy(p.streams, Rank) && NamesDiffer(p.streams)
        && StrictBy(p.dns, RecordName) && DistinctKeys(p.dns, RecordName)
  }

  lemma NoChangeInOrder(p: Plan, q: Plan, d: Delta)
    requires DeltaOf(p, q, d) && PlanInOrder(p) && PlanInOrder(q)
    ensures d.ChangeCount() == 0 <==> p.streams == q.streams && p.dns == q.dns
  {
    NoChangeIsEqual(p, q, d);
    hide DeltaOf, Rank, Index, IndexRecords, StrictBy, NamesDiffer, DistinctKeys;
    if Index(p.streams) == Index(q.streams) && IndexRecords(p.dns) == IndexRecords(q.dns) {
      forall s ensures s in p.streams <==> s in q.streams {
        if s in p.streams { IndexOfDistinct(p.streams, s); }
        if s in q.streams { IndexOfDistinct(q.streams, s); }
      }
      StrictUnique(p.streams, q.streams, Rank);
      forall r ensures r in p.dns <==> r in q.dns {
        if r in p.dns { RecordsOfDistinct(p.dns, r); }
        if r in q.dns { RecordsOfDistinct(q.dns, r); }
      }
      StrictUnique(p.dns, q.dns, RecordName);
    }
  }

  /** Between plans with distinct names, cabinets attached or not, no change means the same streams and records. */
  lemma NoChangeIsSamePlan(t: Topology, u: Topology, inv: Option<Inventory>, b: Plan, c: Plan,
                           p: Plan, q: Plan, d: Delta)
    requires Made(t, inv, b, p) && Made(u, inv, c, q) && DeltaOf(p, q, d)
    requires NamesDiffer(p.streams) && NamesDiffer(q.streams)
    ensures d.ChangeCount() == 0 <==> p.streams == q.streams && p.dns == q.dns
  {
    hide PlanOf, DeltaOf, NamesDiffer, StrictBy, DistinctKeys, Attached, AttachOk, Loaded;
    MadeNames(t, inv, b, p);
    MadeNames(u, inv, c, q);
    RecordsInOrder(t, b);
    RecordsInOrder(u, c);
    hide Made;
    NoChangeInOrder(p, q, d);
  }

  lemma RecordsInOrder(t: Topology, p: Plan)
    requires PlanOf(t, p)
    ensures StrictBy(p.dns, RecordName) && DistinctKeys(p.dns, RecordName)
  {
    StrictIsDistinct(p.dns, RecordName);
  }
}

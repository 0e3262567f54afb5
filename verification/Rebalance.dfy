/**
  internal/render/rebalance.go: the rows of the rebalance runbook, and what its suppression of
  central rows leaves out.
 */
module Rebalance {
  import opened Basics
  import opened Naming
  import opened Text
  import opened Sorting
  import opened Topology
  import opened Plan
  import opened Fleet
  import opened Cabinets
  import opened Diff

  datatype MoveRow = MoveRow(name: string, oldCluster: string, newCluster: string, oldDomain: string, newDomain: string)

  datatype StreamRow = StreamRow(name: string, cluster: string)

  datatype DNSRow = DNSRow(name: string, oldTarget: string, newTarget: string)

  class RebalanceData {
    const dot: string
    const hasChanges: bool
    var moved: seq<MoveRow>
    var added: seq<StreamRow>
    var removed: seq<StreamRow>
    var modified: seq<StreamRow>
    var dnsChanged: seq<DNSRow>
    var dnsAdded: seq<DNSRow>
    var dnsRemoved: seq<DNSRow>

    constructor (d: Delta)
      ensures dot == d.dot && hasChanges == (d.ChangeCount() > 0)
      ensures moved == [] && added == [] && removed == [] && modified == []
      ensures dnsChanged == [] && dnsAdded == [] && dnsRemoved == []
    {
      dot, hasChanges := d.dot, d.ChangeCount() > 0;
      moved, added, removed, modified := [], [], [], [];
      dnsChanged, dnsAdded, dnsRemoved := [], [], [];
    }

    method AddStreams(d: Delta)
      requires moved == [] && added == [] && removed == [] && modified == []
      modifies this`moved, this`added, this`removed, this`modified
      ensures |moved| == |d.moved| && forall i :: 0 <= i < |moved| ==> moved[i] == MoveRowOf(d.moved[i])
      ensures added == RowsOf(d.added) && removed == RowsOf(d.removed)
      ensures modified == RowsOf(Shown(d.modified, d.moved != []))
    {
      for i := 0 to |d.moved|
        modifies this`moved
        invariant |moved| == i && forall k :: 0 <= k < i ==> moved[k] == MoveRowOf(d.moved[k])
      {
        var m := d.moved[i];
        moved := moved + [MoveRow(m.to.name, m.from.cluster, m.to.cluster, m.from.jsDomain, m.to.jsDomain)];
      }
      for i := 0 to |d.added|
        modifies this`added
        invariant |added| == i && forall k :: 0 <= k < i ==> added[k] == RowOf(d.added[k])
      {
        added := added + [RowOf(d.added[i])];
      }
      for i := 0 to |d.removed|
        modifies this`removed
        invariant |removed| == i && forall k :: 0 <= k < i ==> removed[k] == RowOf(d.removed[k])
      {
        removed := removed + [RowOf(d.removed[i])];
      }
      var hasMoves := |d.moved| > 0;
      for i := 0 to |d.modified|
        modifies this`modified
        invariant modified == RowsOf(Shown(d.modified[..i], hasMoves))
      {
        var m := d.modified[i];
        assert d.modified[..i + 1][..i] == d.modified[..i];
        if hasMoves && m.to.tier.CentralTier? {
          continue;
        }
        modified := modified + [RowOf(m.to)];
      }
      assert d.modified[..|d.modified|] == d.modified;
    }

    method AddRecords(d: Delta)
      requires dnsChanged == [] && dnsAdded == [] && dnsRemoved == []
      modifies this`dnsChanged, this`dnsAdded, this`dnsRemoved
      ensures |dnsChanged| == |d.dnsChanged| && forall i :: 0 <= i < |d.dnsChanged| ==>
                dnsChanged[i] == ChangedRow(d.dnsChanged[i])
      ensures |dnsAdded| == |d.dnsAdded| && forall i :: 0 <= i < |d.dnsAdded| ==> dnsAdded[i] == AddedRow(d.dnsAdded[i])
      ensures |dnsRemoved| == |d.dnsRemoved| && forall i :: 0 <= i < |d.dnsRemoved| ==>
                dnsRemoved[i] == RemovedRow(d.dnsRemoved[i])
    {
      for i := 0 to |d.dnsChanged|
        modifies this`dnsChanged
        invariant |dnsChanged| == i && forall k :: 0 <= k < i ==> dnsChanged[k] == ChangedRow(d.dnsChanged[k])
      {
        dnsChanged := dnsChanged + [ChangedRow(d.dnsChanged[i])];
      }
      for i := 0 to |d.dnsAdded|
        modifies this`dnsAdded
        invariant |dnsAdded| == i && forall k :: 0 <= k < i ==> dnsAdded[k] == AddedRow(d.dnsAdded[k])
      {
        dnsAdded := dnsAdded + [AddedRow(d.dnsAdded[i])];
      }
      for i := 0 to |d.dnsRemoved|
        modifies this`dnsRemoved
        invariant |dnsRemoved| == i && forall k :: 0 <= k < i ==> dnsRemoved[k] == RemovedRow(d.dnsRemoved[k])
      {
        dnsRemoved := dnsRemoved + [RemovedRow(d.dnsRemoved[i])];
      }
    }
  }

  function MoveRowOf(m: StreamMove): MoveRow
  {
    MoveRow(m.to.name, m.from.cluster, m.to.cluster, m.from.jsDomain, m.to.jsDomain)
  }

  function RowOf(s: Stream): StreamRow { StreamRow(s.name, s.cluster) }

  function RowsOf(ss: seq<Stream>): (r: seq<StreamRow>)
    ensures |r| == |ss|
  {
    seq(|ss|, i requires 0 <= i < |ss| => RowOf(ss[i]))
  }

  /** The in-place changes that get a row: central ones only when nothing moves. */
  function Shown(ms: seq<StreamMove>, hasMoves: bool): seq<Stream>
  {
    if ms == [] then []
    else
      var m := ms[|ms| - 1];
      Shown(ms[..|ms| - 1], hasMoves) + (if hasMoves && m.to.tier.CentralTier? then [] else [m.to])
  }

  function ChangedRow(c: DNSChange): DNSRow { DNSRow(c.name, c.from, c.to) }

  function AddedRow(r: DNSRecord): DNSRow { DNSRow(r.name, "", r.target) }

  function RemovedRow(r: DNSRecord): DNSRow { DNSRow(r.name, r.target, "") }

  method BuildRebalanceData(d: Delta) returns (rd: RebalanceData)
    ensures fresh(rd) && rd.dot == d.dot && rd.hasChanges == (d.ChangeCount() > 0)
    ensures |rd.moved| == |d.moved| && forall i :: 0 <= i < |d.moved| ==> rd.moved[i] == MoveRowOf(d.moved[i])
    ensures rd.added == RowsOf(d.added) && rd.removed == RowsOf(d.removed)
    ensures rd.modified == RowsOf(Shown(d.modified, d.moved != []))
    ensures |rd.dnsChanged| == |d.dnsChanged| && forall i :: 0 <= i < |d.dnsChanged| ==>
              rd.dnsChanged[i] == ChangedRow(d.dnsChanged[i])
    ensures |rd.dnsAdded| == |d.dnsAdded| && forall i :: 0 <= i < |d.dnsAdded| ==>
              rd.dnsAdded[i] == AddedRow(d.dnsAdded[i])
    ensures |rd.dnsRemoved| == |d.dnsRemoved| && forall i :: 0 <= i < |d.dnsRemoved| ==>
              rd.dnsRemoved[i] == RemovedRow(d.dnsRemoved[i])
  {
    hide MoveRowOf, RowsOf, Shown;
    rd := new RebalanceData(d);
    rd.AddStreams(d);
    rd.AddRecords(d);
  }

  // ---- the rows against the two plans ----

  /** Where the stream was, and where it is to be. */
  ghost predicate IsMoveRow(a: Streams, b: Streams, r: MoveRow)
  {
    && r.name in a && r.name in b
    && r.oldCluster == a[r.name].cluster && r.oldDomain == a[r.name].jsDomain
    && r.newCluster == b[r.name].cluster && r.newDomain == b[r.name].jsDomain
    && (r.oldCluster != r.newCluster || r.oldDomain != r.newDomain)
  }

  /** In the second plan only, with its place there. */
  ghost predicate IsNewRow(a: Streams, b: Streams, r: StreamRow)
  {
    r.name in b && r.name !in a && r.cluster == b[r.name].cluster
  }

  /** In place, and not the same as before. */
  ghost predicate IsChangeRow(a: Streams, b: Streams, quiet: bool, r: StreamRow)
  {
    && r.name in a && r.name in b && a[r.name] != b[r.name]
    && r.cluster == a[r.name].cluster == b[r.name].cluster && a[r.name].jsDomain == b[r.name].jsDomain
    && !(quiet && b[r.name].tier.CentralTier?)
  }

  ghost predicate IsRetargetRow(x: Records, y: Records, r: DNSRow)
  {
    && r.name in x && r.name in y && r.oldTarget != r.newTarget
    && r.oldTarget == x[r.name].target && r.newTarget == y[r.name].target
  }

  function RowName(r: StreamRow): string { r.name }

  function MoveRowName(r: MoveRow): string { r.name }

  function DNSRowName(r: DNSRow): string { r.name }

  lemma MoveRowsTell(a: Streams, b: Streams, ms: seq<StreamMove>, rows: seq<MoveRow>)
    requires Diff.Keyed(b) && StrictBy(ms, MoveName) && forall m :: m in ms <==> IsMoved(a, b, m)
    requires |rows| == |ms| && forall i :: 0 <= i < |rows| ==> rows[i] == MoveRowOf(ms[i])
    ensures StrictBy(rows, MoveRowName) && forall r :: r in rows <==> IsMoveRow(a, b, r)
  {
    hide Less;
    forall r ensures r in rows <==> IsMoveRow(a, b, r) {
      if r in rows {
        var i :| 0 <= i < |rows| && rows[i] == r;
        assert ms[i] in ms;
      }
      if IsMoveRow(a, b, r) {
        var m := StreamMove(a[r.name], b[r.name]);
        assert IsMoved(a, b, m);
        var i :| 0 <= i < |ms| && ms[i] == m;
        assert rows[i] == r;
      }
    }
    forall i, j | 0 <= i < j < |rows| ensures Less(MoveRowName(rows[i]), MoveRowName(rows[j])) {
      assert Less(MoveName(ms[i]), MoveName(ms[j]));
    }
  }

  lemma NewRowsTell(a: Streams, b: Streams, ss: seq<Stream>)
    requires Diff.Keyed(b) && StrictBy(ss, NameOf) && forall s :: s in ss <==> IsAdded(a, b, s)
    ensures StrictBy(RowsOf(ss), RowName) && forall r :: r in RowsOf(ss) <==> IsNewRow(a, b, r)
  {
    hide Less;
    var rows := RowsOf(ss);
    forall r ensures r in rows <==> IsNewRow(a, b, r) {
      if r in rows {
        var i :| 0 <= i < |rows| && rows[i] == r;
        assert ss[i] in ss;
      }
      if IsNewRow(a, b, r) {
        assert IsAdded(a, b, b[r.name]);
        var i :| 0 <= i < |ss| && ss[i] == b[r.name];
        assert rows[i] == r;
      }
    }
    forall i, j | 0 <= i < j < |rows| ensures Less(RowName(rows[i]), RowName(rows[j])) {
      assert Less(NameOf(ss[i]), NameOf(ss[j]));
    }
  }

  lemma ChangeRowsTell(a: Streams, b: Streams, ms: seq<StreamMove>, quiet: bool)
    requires Diff.Keyed(a) && Diff.Keyed(b) && StrictBy(ms, MoveName) && forall m :: m in ms <==> IsModified(a, b, m)
    ensures var rows := RowsOf(Shown(ms, quiet));
            StrictBy(rows, RowName) && forall r :: r in rows <==> IsChangeRow(a, b, quiet, r)
  {
    hide Less;
    var shown := Shown(ms, quiet);
    var rows := RowsOf(shown);
    forall r ensures r in rows <==> IsChangeRow(a, b, quiet, r) {
      if r in rows {
        var i :| 0 <= i < |rows| && rows[i] == r;
        assert shown[i] in shown;
        ShownAre(ms, quiet, shown[i]);
        var m :| m in ms && m.to == shown[i] && !(quiet && m.to.tier.CentralTier?);
        UnchangedIsEqual(m.from, m.to);
      }
      if IsChangeRow(a, b, quiet, r) {
        var m := StreamMove(a[r.name], b[r.name]);
        UnchangedIsEqual(m.from, m.to);
        assert IsModified(a, b, m);
        ShownAre(ms, quiet, m.to);
        var i :| 0 <= i < |shown| && shown[i] == m.to;
        assert rows[i] == r;
      }
    }
    ShownInOrder(ms, quiet);
    assert forall i :: 0 <= i < |rows| ==> RowName(rows[i]) == NameOf(shown[i]);
  }

  lemma {:induction false} ShownInOrder(ms: seq<StreamMove>, quiet: bool)
    requires StrictBy(ms, MoveName)
    ensures StrictBy(Shown(ms, quiet), NameOf)
  {
    hide Less;
    if ms != [] {
      var front, last := ms[..|ms| - 1], ms[|ms| - 1];
      ShownInOrder(front, quiet);
      forall s | s in Shown(front, quiet) ensures Less(NameOf(s), MoveName(last)) {
        ShownAre(front, quiet, s);
        var m :| m in front && m.to == s;
        var i :| 0 <= i < |front| && front[i] == m;
        assert Less(MoveName(ms[i]), MoveName(last));
      }
    }
  }

  lemma RetargetRowsTell(x: Records, y: Records, cs: seq<DNSChange>, rows: seq<DNSRow>)
    requires StrictBy(cs, ChangeName) && forall c :: c in cs <==> IsRetargeted(x, y, c)
    requires |rows| == |cs| && forall i :: 0 <= i < |rows| ==> rows[i] == ChangedRow(cs[i])
    ensures StrictBy(rows, DNSRowName) && forall r :: r in rows <==> IsRetargetRow(x, y, r)
  {
    hide Less;
    forall r ensures r in rows <==> IsRetargetRow(x, y, r) {
      if r in rows {
        var i :| 0 <= i < |rows| && rows[i] == r;
        assert cs[i] in cs;
      }
      if IsRetargetRow(x, y, r) {
        var c := DNSChange(r.name, r.oldTarget, r.newTarget);
        assert IsRetargeted(x, y, c);
        var i :| 0 <= i < |cs| && cs[i] == c;
        assert rows[i] == r;
      }
    }
    forall i, j | 0 <= i < j < |rows| ensures Less(DNSRowName(rows[i]), DNSRowName(rows[j])) {
      assert Less(ChangeName(cs[i]), ChangeName(cs[j]));
    }
  }

  lemma AddedRowsTell(x: Records, y: Records, rs: seq<DNSRecord>, rows: seq<DNSRow>)
    requires KeyedRecords(y) && StrictBy(rs, RecordName) && forall r :: r in rs <==> IsNewRecord(x, y, r)
    requires |rows| == |rs| && forall i :: 0 <= i < |rs| ==> rows[i] == AddedRow(rs[i])
    ensures StrictBy(rows, DNSRowName)
    ensures forall r: DNSRow :: r in rows <==>
              r.name in y && r.name !in x && r.oldTarget == "" && r.newTarget == y[r.name].target
  {
    hide Less;
    forall r: DNSRow
      ensures r in rows <==> r.name in y && r.name !in x && r.oldTarget == "" && r.newTarget == y[r.name].target
    {
      if r in rows {
        var i :| 0 <= i < |rs| && rows[i] == r;
        assert rs[i] in rs;
      }
      if r.name in y && r.name !in x {
        assert IsNewRecord(x, y, y[r.name]);
        var i :| 0 <= i < |rs| && rs[i] == y[r.name];
        assert rows[i].name == r.name;
      }
    }
    forall i, j | 0 <= i < j < |rs| ensures Less(DNSRowName(rows[i]), DNSRowName(rows[j])) {
      assert Less(RecordName(rs[i]), RecordName(rs[j]));
    }
  }

  lemma RemovedRowsTell(x: Records, y: Records, rs: seq<DNSRecord>, rows: seq<DNSRow>)
    requires KeyedRecords(y) && StrictBy(rs, RecordName) && forall r :: r in rs <==> IsNewRecord(x, y, r)
    requires |rows| == |rs| && forall i :: 0 <= i < |rs| ==> rows[i] == RemovedRow(rs[i])
    ensures StrictBy(rows, DNSRowName)
    ensures forall r: DNSRow :: r in rows <==>
              r.name in y && r.name !in x && r.newTarget == "" && r.oldTarget == y[r.name].target
  {
    hide Less;
    forall r: DNSRow
      ensures r in rows <==> r.name in y && r.name !in x && r.newTarget == "" && r.oldTarget == y[r.name].target
    {
      if r in rows {
        var i :| 0 <= i < |rs| && rows[i] == r;
        assert rs[i] in rs;
      }
      if r.name in y && r.name !in x {
        assert IsNewRecord(x, y, y[r.name]);
        var i :| 0 <= i < |rs| && rs[i] == y[r.name];
        assert rows[i].name == r.name;
      }
    }
    forall i, j | 0 <= i < j < |rs| ensures Less(DNSRowName(rows[i]), DNSRowName(rows[j])) {
      assert Less(RecordName(rs[i]), RecordName(rs[j]));
    }
  }

  /** The rows are in strict name order and tell, list by list, what the two plans say. */
  ghost predicate StreamsTell(a: Streams, b: Streams, moved: seq<MoveRow>, added: seq<StreamRow>,
                              removed: seq<StreamRow>, modified: seq<StreamRow>)
  {
    && StrictBy(moved, MoveRowName) && (forall r :: r in moved <==> IsMoveRow(a, b, r))
    && StrictBy(added, RowName) && (forall r :: r in added <==> IsNewRow(a, b, r))
    && StrictBy(removed, RowName) && (forall r :: r in removed <==> IsNewRow(b, a, r))
    && StrictBy(modified, RowName) && (forall r :: r in modified <==> IsChangeRow(a, b, moved != [], r))
  }

  ghost predicate RecordsTell(x: Records, y: Records, changed: seq<DNSRow>, added: seq<DNSRow>, removed: seq<DNSRow>)
  {
    && StrictBy(changed, DNSRowName) && (forall r :: r in changed <==> IsRetargetRow(x, y, r))
    && StrictBy(added, DNSRowName)
    && (forall r: DNSRow :: r in added <==>
          r.name in y && r.name !in x && r.oldTarget == "" && r.newTarget == y[r.name].target)
    && StrictBy(removed, DNSRowName)
    && (forall r: DNSRow :: r in removed <==>
          r.name in x && r.name !in y && r.oldTarget == x[r.name].target && r.newTarget == "")
  }

  lemma StreamRowsTell(p: Plan, q: Plan, d: Delta, moved: seq<MoveRow>)
    requires DeltaOf(p, q, d) && |moved| == |d.moved|
    requires forall i :: 0 <= i < |moved| ==> moved[i] == MoveRowOf(d.moved[i])
    ensures StreamsTell(Index(p.streams), Index(q.streams), moved, RowsOf(d.added), RowsOf(d.removed),
                        RowsOf(Shown(d.modified, d.moved != [])))
  {
    hide StrictBy, MoveRowOf, RowsOf, Shown, IsMoved, IsModified, IsAdded, Index, RecordsDelta, IsMoveRow, IsNewRow,
      IsChangeRow;
    var a, b := Index(p.streams), Index(q.streams);
    MoveRowsTell(a, b, d.moved, moved);
    NewRowsTell(a, b, d.added);
    NewRowsTell(b, a, d.removed);
    ChangeRowsTell(a, b, d.modified, d.moved != []);
  }

  lemma RecordRowsTellAll(p: Plan, q: Plan, d: Delta, changed: seq<DNSRow>, added: seq<DNSRow>, removed: seq<DNSRow>)
    requires DeltaOf(p, q, d)
    requires |changed| == |d.dnsChanged| && forall i :: 0 <= i < |changed| ==> changed[i] == ChangedRow(d.dnsChanged[i])
    requires |added| == |d.dnsAdded| && forall i :: 0 <= i < |added| ==> added[i] == AddedRow(d.dnsAdded[i])
    requires |removed| == |d.dnsRemoved| && forall i :: 0 <= i < |removed| ==> removed[i] == RemovedRow(d.dnsRemoved[i])
    ensures RecordsTell(IndexRecords(p.dns), IndexRecords(q.dns), changed, added, removed)
  {
    hide StrictBy, ChangedRow, AddedRow, RemovedRow, IsNewRecord, IsRetargeted, IndexRecords, StreamsDelta,
      IsRetargetRow;
    var x, y := IndexRecords(p.dns), IndexRecords(q.dns);
    RetargetRowsTell(x, y, d.dnsChanged, changed);
    AddedRowsTell(x, y, d.dnsAdded, added);
    RemovedRowsTell(y, x, d.dnsRemoved, removed);
  }

  /** What the command does with the old and the new plan. */
  method Runbook(p: Plan, q: Plan) returns (rd: RebalanceData)
    ensures fresh(rd) && rd.dot == q.dot
    ensures StreamsTell(Index(p.streams), Index(q.streams), rd.moved, rd.added, rd.removed, rd.modified)
    ensures RecordsTell(IndexRecords(p.dns), IndexRecords(q.dns), rd.dnsChanged, rd.dnsAdded, rd.dnsRemoved)
    ensures rd.hasChanges <==> Index(p.streams) != Index(q.streams) || IndexRecords(p.dns) != IndexRecords(q.dns)
  {
    var d := Diff.Diff(p, q);
    assert d.dot == q.dot;
    hide DeltaOf, StreamsTell, RecordsTell, MoveRowOf, RowsOf, Shown, ChangedRow, AddedRow, RemovedRow, Index,
      IndexRecords;
    rd := BuildRebalanceData(d);
    NoChangeIsEqual(p, q, d);
    StreamRowsTell(p, q, d, rd.moved);
    RecordRowsTellAll(p, q, d, rd.dnsChanged, rd.dnsAdded, rd.dnsRemoved);
  }

  // ---- what suppression hides ----

  lemma {:induction false} ShownAre(ms: seq<StreamMove>, hasMoves: bool, s: Stream)
    ensures s in Shown(ms, hasMoves) <==> exists m <- ms :: m.to == s && !(hasMoves && s.tier.CentralTier?)
  {
    if ms != [] {
      var front, last := ms[..|ms| - 1], ms[|ms| - 1];
      ShownAre(front, hasMoves, s);
      assert ms == front + [last];
    }
  }

  /** The move row of the stream's only source tells the whole change. */
  ghost predicate CoveredBy(m: StreamMove, mv: StreamMove)
  {
    && |m.from.sources| == 1 && mv.to.name == m.from.sources[0].name && mv.from.jsDomain == m.from.sources[0].domain
    && m.to == m.from.(sources := [m.from.sources[0].(domain := mv.to.jsDomain)])
  }

  ghost predicate Covered(d: Delta, m: StreamMove) { exists mv <- d.moved :: CoveredBy(m, mv) }

  lemma SameShardSameSource(t: Topology, u: Topology, x: Part, y: Part)
    requires t.dot == u.dot && Entry(t, x) && Entry(u, y) && ShardName(t, x) == ShardName(u, y)
    ensures x.streamName == y.streamName
  {
    var head := "VIKASA_" + Sanitize(t.dot) + "_";
    var sx, sy := PartitionSuffix(x.district, x.id), PartitionSuffix(y.district, y.id);
    assert ShardName(t, x) == head + "CENTRAL_" + sx && ShardName(u, y) == head + "CENTRAL_" + sy;
    assert (head + "CENTRAL_" + sx)[|head + "CENTRAL_"|..] == sx;
    assert (head + "CENTRAL_" + sy)[|head + "CENTRAL_"|..] == sy;
  }

  lemma RegionalIndexed(t: Topology, inv: Option<Inventory>, b: Plan, p: Plan, x: Part)
    requires Made(t, inv, b, p) && NamesDiffer(p.streams) && Entry(t, x)
    ensures Placed(t, x) && x.streamName in Index(p.streams)
    ensures SamePlace(RegionalStream(t, x), Index(p.streams)[x.streamName])
  {
    MadeNames(t, inv, b, p);
    MadeInPlace(t, inv, b, p);
    assert PlanOf(t, b);
    hide Made, PlanOf, Index, Entry, SamePlace, NamesDiffer;
    var i, j := EveryPartitionOnce(t, b, x);
    assert b.streams[i] in b.streams;
    IndexOfDistinct(b.streams, b.streams[i]);
    IndexInPlace(b.streams, p.streams);
  }

  /**
    A suppressed central row is told by the move of its source exactly when the stream was a
    central shard before and its replica count stays.
   */
  lemma CoveredExactly(t: Topology, u: Topology, inv: Option<Inventory>, b: Plan, c: Plan, p: Plan, q: Plan,
                       d: Delta, m: StreamMove)
    requires Made(t, inv, b, p) && Made(u, inv, c, q) && t.dot == u.dot
    requires NamesDiffer(p.streams) && NamesDiffer(q.streams)
    requires DeltaOf(p, q, d) && m in d.modified && m.to.tier.CentralTier?
    ensures Covered(d, m) <==> m.from.tier.CentralTier? && m.from.replicas == m.to.replicas
  {
    assert IsModified(Index(p.streams), Index(q.streams), m);
    assert m.from in p.streams && m.to in q.streams && m.from.name == m.to.name;
    if m.from.tier.CentralTier? && m.from.replicas == m.to.replicas {
      var x := ShardOf(t, inv, b, p, m.from);
      var y := ShardOf(u, inv, c, q, m.to);
      hide Made, PlanOf, DeltaOf, Index, Entry, IsModified, SamePlace, NamesDiffer;
      SameShardSameSource(t, u, x, y);
      RegionalIndexed(t, inv, b, p, x);
      RegionalIndexed(u, inv, c, q, y);
      var mv := StreamMove(Index(p.streams)[x.streamName], Index(q.streams)[y.streamName]);
      ShardChange(t, u, x, y, m, mv);
      MovedIn(p, q, d, mv);
    }
  }

  lemma ShardOf(t: Topology, inv: Option<Inventory>, b: Plan, p: Plan, s: Stream) returns (x: Part)
    requires Made(t, inv, b, p) && s in p.streams && s.tier.CentralTier?
    ensures Entry(t, x) && Placed(t, x) && CentralReady(t) && s == Shard(t, x)
  {
    hide PlanOf, Shard;
    MadeInPlace(t, inv, b, p);
    BuiltWith(b, p, s);
    NothingElse(t, b, s);
    x :| Entry(t, x) && Placed(t, x) && s == Shard(t, x);
  }

  lemma BuiltWith(b: Plan, p: Plan, s: Stream)
    requires SamePlaces(b.streams, p.streams) && s in p.streams && !s.tier.RegionalTier?
    ensures s in b.streams
  {
    var k :| 0 <= k < |p.streams| && p.streams[k] == s;
    assert SamePlace(b.streams[k], p.streams[k]);
    assert b.streams[k] in b.streams;
  }

  lemma ShardChange(t: Topology, u: Topology, x: Part, y: Part, m: StreamMove, mv: StreamMove)
    requires Placed(t, x) && Placed(u, y) && CentralReady(t) && CentralReady(u)
    requires m.from == Shard(t, x) && m.to == Shard(u, y) && m.from.name == m.to.name && x.streamName == y.streamName
    requires SamePlace(RegionalStream(t, x), mv.from) && SamePlace(RegionalStream(u, y), mv.to)
    requires !Relocated(m.from, m.to) && StreamConfigChanged(m.from, m.to) && m.from.replicas == m.to.replicas
    ensures CoveredBy(m, mv) && Relocated(mv.from, mv.to)
  {
    hide ShardName;
    assert m.to.sources == [m.from.sources[0].(domain := mv.to.jsDomain)];
    UnchangedIsEqual(m.from, m.to);
  }

  lemma MovedIn(p: Plan, q: Plan, d: Delta, mv: StreamMove)
    requires DeltaOf(p, q, d) && InBoth(Index(p.streams), Index(q.streams), mv) && Relocated(mv.from, mv.to)
    ensures mv in d.moved
  {
    assert IsMoved(Index(p.streams), Index(q.streams), mv);
  }

  /** Every in-place change is either listed or told by a move. */
  ghost predicate NothingLost(d: Delta)
  {
    forall m <- d.modified :: m.to in Shown(d.modified, d.moved != []) || Covered(d, m)
  }

  /** No name turns into a central shard in place, and no shard changes its replicas in place. */
  ghost predicate Steady(p: Plan, q: Plan)
  {
    forall m :: IsModified(Index(p.streams), Index(q.streams), m) && m.to.tier.CentralTier? ==>
      m.from.tier.CentralTier? && m.from.replicas == m.to.replicas
  }

  lemma NothingLostExactly(t: Topology, u: Topology, inv: Option<Inventory>, b: Plan, c: Plan, p: Plan,
                           q: Plan, d: Delta)
    requires Made(t, inv, b, p) && Made(u, inv, c, q) && t.dot == u.dot
    requires NamesDiffer(p.streams) && NamesDiffer(q.streams) && DeltaOf(p, q, d)
    ensures NothingLost(d) <==> d.moved == [] || Steady(p, q)
  {
    assert forall m :: m in d.modified <==> IsModified(Index(p.streams), Index(q.streams), m);
    hide Made, PlanOf, DeltaOf, Index, IsModified, Covered;
    forall m | m in d.modified
      ensures m.to in Shown(d.modified, d.moved != []) || Covered(d, m) <==>
                d.moved == [] || !m.to.tier.CentralTier?
                    || (m.from.tier.CentralTier? && m.from.replicas == m.to.replicas)
    {
      ShownAre(d.modified, d.moved != [], m.to);
      if m.to.tier.CentralTier? { CoveredExactly(t, u, inv, b, c, p, q, d, m); }
    }
  }

  /** What a topology author can check: the replicas setting stays, and no district was named after central. */
  lemma SteadyTopologies(t: Topology, u: Topology, inv: Option<Inventory>, b: Plan, c: Plan, p: Plan, q: Plan)
    requires Made(t, inv, b, p) && Made(u, inv, c, q) && t.dot == u.dot
    requires Validate(t) && t.central.Some? && u.central.Some?
    requires OrDefault(t.central.value.replicas) == OrDefault(u.central.value.replicas)
    requires forall d <- t.district :: !CentralLike(d)
    ensures Steady(p, q)
  {
    hide Made, PlanOf, Validate;
    forall m | IsModified(Index(p.streams), Index(q.streams), m) && m.to.tier.CentralTier?
      ensures m.from.tier.CentralTier? && m.from.replicas == m.to.replicas
    {
      var y := ShardOf(u, inv, c, q, m.to);
      hide Index, IsModified;
      ShardOnlyFromShard(t, inv, b, p, u, y, m.from);
      var x := ShardOf(t, inv, b, p, m.from);
    }
  }

  lemma ShardOnlyFromShard(t: Topology, inv: Option<Inventory>, b: Plan, p: Plan, u: Topology, y: Part, s: Stream)
    requires Made(t, inv, b, p) && Validate(t) && t.dot == u.dot && s in p.streams && s.name == ShardName(u, y)
    requires forall d <- t.district :: !CentralLike(d)
    ensures s.tier.CentralTier?
  {
    hide PlanOf, Validate, ClashingPair;
    MadeInPlace(t, inv, b, p);
    var k :| 0 <= k < |p.streams| && p.streams[k] == s;
    assert SamePlace(b.streams[k], s);
    NothingElse(t, b, b.streams[k]);
    if s.tier.RegionalTier? {
      var z :| Entry(t, z) && Placed(t, z) && b.streams[k] == RegionalStream(t, z);
      ShardAgainstRegional(t, y, z);
      ClashNeedsCentral(t, y, z);
      assert false;
    }
    if s.tier.DMZTier? {
      DmzNotShard(t.dot, y);
      assert false;
    }
  }

  lemma DmzNotShard(dot: string, y: Part)
    ensures DMZStreamName(dot) != CentralShardStreamName(dot, y.district, y.id)
  {
    assert |CentralShardStreamName(dot, y.district, y.id)| > |DMZStreamName(dot)|;
  }

  // ---- a change that is lost ----

  const SITES: map<string, Cluster> := map[
    "c" := Cluster(Some("c"), Some("c.example"), Kubernetes),
    "e" := Cluster(Some("e"), Some("e.example"), Kubernetes)]

  /** One partition, on the given cluster; central on c with the given replicas. */
  function Single(dot: string, d: string, part: string, cluster: string, replicas: nat): Topology
  {
    Topology(dot, SITES, map[d := District(map[part := Partition(Some(cluster))], None)],
        Some(Central(Some("c"), Some(replicas))), None)
  }

  function SinglePart(dot: string, d: string, part: string, cluster: string): Part
  {
    Part(d, part, cluster, PartitionStreamName(dot, d, part))
  }

  lemma SinglePlan(dot: string, d: string, part: string, cluster: string, replicas: nat) returns (p: Plan)
    requires cluster in SITES
    ensures var t, x := Single(dot, d, part, cluster, replicas), SinglePart(dot, d, part, cluster);
            && PlanOf(t, p) && CentralReady(t) && Placed(t, x)
            && Entry(t, x) && p.streams == [Shard(t, x), RegionalStream(t, x)]
  {
    hide PartitionStreamName;
    var t, x := Single(dot, d, part, cluster, replicas), SinglePart(dot, d, part, cluster);
    assert Owns(t, d, part) && x == PartOf(t, d, part);
    assert CentralReady(t) && Placed(t, x);
    p := Plan(dot, [Shard(t, x), RegionalStream(t, x)], [LeafRecord(t, x)]);
    assert Shards(t, [x]) + Regionals(t, [x]) + [] == p.streams;
    assert Leaves(t, [x]) == p.dns;
    assert PartsOf(t, [x]);
    assert PlanFrom(t, [x], [], p);
  }

  /** Moving a partition while raising central's replicas: the runbook never mentions the replicas. */
  lemma ReplicaChangeIsLost(dot: string, d: string, part: string, delta: Delta) returns (p: Plan, q: Plan)
    requires Token(dot) && Token(d) && PartitionId(part) && !CentralLike(d)
    ensures var t, u := Single(dot, d, part, "c", 3), Single(dot, d, part, "e", 5);
            PlanOf(t, p) && PlanOf(u, q) && NamesDiffer(p.streams) && NamesDiffer(q.streams)
    ensures DeltaOf(p, q, delta) ==> !NothingLost(delta)
  {
    var t, u := Single(dot, d, part, "c", 3), Single(dot, d, part, "e", 5);
    p := SinglePlan(dot, d, part, "c", 3);
    q := SinglePlan(dot, d, part, "e", 5);
    SingleIsValid(dot, d, part, "c", 3);
    SingleIsValid(dot, d, part, "e", 5);
    NamesDifferUnlessCentral(t, p);
    NamesDifferUnlessCentral(u, q);
    hide Validate, PlanOf, NamesDiffer, DeltaOf, NothingLost, Single;
    BuiltIsMade(t, p);
    BuiltIsMade(u, q);
    hide Made;
    assert t.dot == u.dot by { SingleDot(dot, d, part, "c", 3); SingleDot(dot, d, part, "e", 5); }
    if DeltaOf(p, q, delta) {
      NothingLostExactly(t, u, None, p, q, p, q, delta);
      SingleMoves(dot, d, part, p, q, delta);
    }
  }

  lemma SingleDot(dot: string, d: string, part: string, cluster: string, replicas: nat)
    ensures Single(dot, d, part, cluster, replicas).dot == dot
  {
  }

  lemma SingleIsValid(dot: string, d: string, part: string, cluster: string, replicas: nat)
    requires Token(dot) && Token(d) && PartitionId(part) && 1 <= replicas <= 5
    ensures Validate(Single(dot, d, part, cluster, replicas))
  {
    assert Token("c") && Token("e");
    assert |"c.example"| > 0 && |"e.example"| > 0;
  }

  lemma SingleMoves(dot: string, d: string, part: string, p: Plan, q: Plan, delta: Delta)
    requires DeltaOf(p, q, delta) && NamesDiffer(p.streams) && NamesDiffer(q.streams)
    requires var t, x := Single(dot, d, part, "c", 3), SinglePart(dot, d, part, "c");
             CentralReady(t) && Placed(t, x) && p.streams == [Shard(t, x), RegionalStream(t, x)]
    requires var u, y := Single(dot, d, part, "e", 5), SinglePart(dot, d, part, "e");
             CentralReady(u) && Placed(u, y) && q.streams == [Shard(u, y), RegionalStream(u, y)]
    ensures delta.moved != [] && !Steady(p, q)
  {
    hide PartitionStreamName, CentralShardStreamName, Index, DeltaOf;
    assert forall i :: 0 <= i < 2 ==> p.streams[i] in p.streams && q.streams[i] in q.streams;
    IndexOfDistinct(p.streams, p.streams[0]);
    IndexOfDistinct(p.streams, p.streams[1]);
    IndexOfDistinct(q.streams, q.streams[0]);
    IndexOfDistinct(q.streams, q.streams[1]);
    MovedIn(p, q, delta, StreamMove(p.streams[1], q.streams[1]));
    assert IsModified(Index(p.streams), Index(q.streams), StreamMove(p.streams[0], q.streams[0]));
  }
}

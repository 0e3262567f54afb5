/**
  What follows for whole runs of issuance and for histories of them: when a run completes, what
  running again changes, which credentials end up revoked.
 */
module Runs {
  import opened Basics
  import opened Topology
  import opened Accounts
  import opened Fleet
  import opened Naming
  import opened Bundle
  import opened IssuanceSpec

  // ---- when a run completes ----

  /** The model has only consumers that can be minted and imports that can be resolved. */
  ghost predicate FitModel(model: Model)
  {
    !UnsafeConsumers(model) && !UndeniedConsumers(model) && !UnresolvedImports(model)
  }

  ghost predicate Runnable(model: Model, inv: Option<Inventory>, t: Topology, spec: RotationSpec)
  {
    InputOk(model, inv, t, spec) && FitModel(model)
  }

  /** Everything the run has to read can be read, and the CA is whole or absent. */
  ghost predicate DiskClean(f: Files, model: Model, inv: Option<Inventory>, t: Topology, spec: RotationSpec)
  {
    && (forall s :: InScope(model, inv, t, s) ==> !BrokenSeed(f, spec, s))
    && !JwtInTheWay(f, spec)
    && (inv.Some? ==> !HalfCA(f) && !f.caCert.Broken() && !f.caKey.Broken() && CAPaired(f))
    && (inv.Some? ==> !BrokenCabinet(f, inv.value, t, spec))
  }

  /** What a run that completes has made of the files it found. */
  ghost predicate RunDone(f: Files, g: Files, model: Model, inv: Option<Inventory>, t: Topology,
                          spec: RotationSpec, now: int)
  {
    && TrustChain(g, model, inv, t, now) && Rotated(f, g, spec) && Runnable(model, inv, t, spec)
    && !JwtInTheWay(f, spec)
    && (inv.Some? ==> InventoryDone(f, g, inv.value, t, spec, now) && !HalfCA(f))
  }

  // ---- the steps of a run, put together ----

  /** What the rest of a run has made of the bundle, from the start `f0` and once the signers are there, `f1`. */
  ghost predicate UsersDone(f0: Files, f1: Files, g: Files, model: Model, inv: Option<Inventory>, t: Topology,
                            spec: RotationSpec, now: int)
  {
    && TrustChain(g, model, inv, t, now) && Rotated(f0, g, spec) && FitModel(model)
    && (inv.Some? ==>
        InventoryDone(f0, g, inv.value, t, spec, now) && InventoryOk(model, inv.value, t, spec) && !HalfCA(f1))
  }

  /** The steps of a completed run put together. */
  lemma RunComplete(f0: Files, f1: Files, f2: Files, f3: Files, f4: Files, model: Model, inv: Option<Inventory>,
                    t: Topology, spec: RotationSpec, now: int)
    requires SignersEnsured(f0, f1, model) && OperatorTrusted(f1, model.dot) && Rotated(f0, f1, spec)
    requires Later(f1, f2) && Later(f2, f3) && Later(f3, f4)
    requires inv.Some? ==> InventoryDone(f1, f2, inv.value, t, spec, now) && InventoryOk(model, inv.value, t, spec)
    requires inv.Some? ==> WholeCA(f2) && !HalfCA(f1)
    requires CurrentUnrevoked(f1) ==> CurrentUnrevoked(f2)
    requires ConsumersMinted(f2, f3, model) && ConsumersTrusted(f3, model, now)
    requires !UnsafeConsumers(model) && !UndeniedConsumers(model)
    requires f4 == f3.(accountJwt := f4.accountJwt, index := f4.index, resolverConf := f4.resolverConf)
    requires (forall a :: a in model.accounts ==> AccountTrusted(f4, a, now)) && !UnresolvedImports(model)
    ensures UsersDone(f0, f1, f4, model, inv, t, spec, now)
    ensures CurrentUnrevoked(f0) ==> CurrentUnrevoked(f4)
  {
    hide AccountTrusted, OperatorTrusted, ConsumersTrusted, CabinetDone, CabinetTrusted, InventoryDone,
      CurrentUnrevoked, InventoryOk, UnsafeConsumers, UndeniedConsumers, UnresolvedImports;
    OperatorStays(f1, f4, model.dot);
    ConsumersStay(f3, f4, model, now);
    SignersOnly(f0, f1, model, inv, t, now);
    UnrevokedMoves(f2, f4);
    assert forall p :: KeyAt(f1, CabinetUser(p)) == KeyAt(f0, CabinetUser(p));
    assert forall s :: KeyAt(f4, s) == KeyAt(f3, s);
    if inv.Some? {
      InventoryDoneMoves(f1, f0, f2, f4, inv.value, t, spec, now);
      DoneIsTrusted(f0, f4, inv.value, t, spec, now);
    }
  }

  lemma UsersDoneIsRunDone(f0: Files, f1: Files, g: Files, model: Model, inv: Option<Inventory>, t: Topology,
                           spec: RotationSpec, now: int)
    requires UsersDone(f0, f1, g, model, inv, t, spec, now) && !JwtInTheWay(f0, spec) && (HalfCA(f1) <==> HalfCA(f0))
    requires (inv.None? ==> spec.cabinets == {}) && forall a :: a in spec.accountSK ==>
        FindAccount(model.accounts, a).Some?
    ensures RunDone(f0, g, model, inv, t, spec, now)
  {
    hide TrustChain, Rotated, FitModel, InventoryDone, InventoryOk, JwtInTheWay, HalfCA;
  }

  // ---- a failed run and a completed one ----

  /** With writes to spare, a run that failed met an input or a file it could not accept. */
  lemma FailureHasGround(f: Files, g: Files, writesLeft: nat, model: Model, inv: Option<Inventory>, t: Topology,
                         spec: RotationSpec, e: Failure)
    requires Cause(f, g, writesLeft, model, inv, t, spec, e) && writesLeft > 0 && NoNewDamage(f, g)
    ensures !(Runnable(model, inv, t, spec) && DiskClean(f, model, inv, t, spec))
  {
    hide InputOk, JwtInTheWay, UnsafeConsumers, UndeniedConsumers, UnresolvedImports;
    match e {
      case BadSeed =>
        var s :| InScope(model, inv, t, s) && BrokenSeed(g, spec, s);
        assert BrokenSeed(f, spec, s);
      case BadArtifact =>
        if BrokenCabinet(g, inv.value, t, spec) {
          var p :| InventoryPath(inv.value, t, p) && BadCabinetArtifact(g, p, p.id in spec.cabinets);
          assert BadCabinetArtifact(f, p, p.id in spec.cabinets);
        }
      case _ =>
    }
  }

  /** A run that completed had acceptable inputs and a clean disk. */
  lemma CompletionHasGround(f: Files, g: Files, model: Model, inv: Option<Inventory>, t: Topology,
                            spec: RotationSpec, now: int)
    requires RunDone(f, g, model, inv, t, spec, now) && Kept(f, g, spec)
    ensures Runnable(model, inv, t, spec) && DiskClean(f, model, inv, t, spec)
  {
    hide TrustChain, InputOk, FitModel, InScope, JwtInTheWay, Rotated;
    if inv.Some? { InventoryIsFlat(model, inv, t, spec); }
    forall s | InScope(model, inv, t, s) ensures !BrokenSeed(f, spec, s) {
      ScopeIsMinted(g, model, inv, t, now, s);
    }
    if inv.Some? {
      CAIsThere(g, model, inv, t, now);
      forall p | InventoryPath(inv.value, t, p) ensures !BadCabinetArtifact(f, p, p.id in spec.cabinets) {
        CleanCabinet(f, g, model, inv.value, t, spec, now, p);
      }
    }
  }

  lemma InventoryIsFlat(model: Model, inv: Option<Inventory>, t: Topology, spec: RotationSpec)
    requires InputOk(model, inv, t, spec) && inv.Some?
    ensures FlatPartitions(t)
  {
  }

  lemma CAIsThere(f: Files, model: Model, inv: Option<Inventory>, t: Topology, now: int)
    requires TrustChain(f, model, inv, t, now) && inv.Some?
    ensures WholeCA(f)
  {
  }

  lemma CleanCabinet(f: Files, g: Files, model: Model, inv: Inventory, t: Topology, spec: RotationSpec,
                     now: int, p: CabinetPath)
    requires TrustChain(g, model, Some(inv), t, now) && InventoryDone(f, g, inv, t, spec, now) && Kept(f, g, spec)
    requires FlatPartitions(t) && InventoryPath(inv, t, p)
    ensures !BadCabinetArtifact(f, p, p.id in spec.cabinets)
  {
    hide TrustChain, CabinetTrusted, RecordsExactly;
    ScopeHasLeaves(g, model, inv, t, now, p);
    var c :| c in inv.cabinets && c.id == p.id && Owns(t, p.district, c.partition);
    var d :| CabinetDone(f, g, t, c, d, spec, now);
    assert CabinetPath(d, c.id) == p;
  }

  /** The model of a validated topology has nothing a run would refuse. */
  lemma ModelIsFit(t: Topology, model: Model)
    requires Validate(t) && ModelOf(t, model)
    ensures FitModel(model)
  {
    hide Validate, ModelOf;
    ModelIsSound(t, model);
    forall name | HasUser(DmzUsers(model), name)
      ensures SafeFileName(name) && Denies(DmzUsers(model), name, ">")
    {
      ConsumersAreFit(t, model, name);
    }
  }

  /**
    From an empty bundle, whatever runs there were and wherever they were cut: a half-written CA is the
    only thing on disk that can keep the next run from completing.
   */
  lemma OnlyHalfCAStops(ws: seq<Write>, model: Model, inv: Option<Inventory>, t: Topology, spec: RotationSpec)
    requires Disciplined(NOTHING, ws)
    ensures var f := Replay(NOTHING, ws).files;
            DiskClean(f, model, inv, t, spec) <==> (inv.Some? ==> !HalfCA(f))
  {
    NothingInv();
    Safety(NOTHING, ws, |ws|);
    assert ws[..|ws|] == ws;
    assert CAPaired(Replay(NOTHING, ws).files);
    hide Replay, InScope, InventoryPath, Disciplined, Inv;
    NothingBroken(ws);
    var f := Replay(NOTHING, ws).files;
    forall a: string ensures !JwtUnreadable(f, a) { }
  }

  // ---- running again ----

  /** Every key file of the bundle: seeds, leaf keys and the CA. */
  ghost predicate SameKeyFiles(f: Files, g: Files)
  {
    && (forall s :: KeyAt(g, s) == KeyAt(f, s)) && (forall p :: At(g.leaf, p) == At(f.leaf, p))
    && g.caCert == f.caCert && g.caKey == f.caKey
  }

  lemma ReissueChangesNothing(f0: Files, f1: Files, f2: Files, model: Model, inv: Option<Inventory>,
                              t: Topology, issuedAt: int)
    requires TrustChain(f0, model, inv, t, issuedAt) && (inv.Some? ==> FlatPartitions(t)) && SameKeyFiles(f0, f1)
    requires Kept(f1, f2, RotationSpec({}, false, {})) && InScopeOnly(f1, f2, model, inv, t)
    ensures SameKeyFiles(f0, f2)
  {
    hide TrustChain, FlatPartitions, InScope, InventoryPath;
    forall s ensures KeyAt(f2, s) == KeyAt(f1, s) {
      if KeyAt(f2, s) != KeyAt(f1, s) { ScopeIsMinted(f0, model, inv, t, issuedAt, s); }
    }
    forall p ensures At(f2.leaf, p) == At(f1.leaf, p) {
      if At(f2.leaf, p) != At(f1.leaf, p) { ScopeHasLeaves(f0, model, inv.value, t, issuedAt, p); }
    }
    if inv.Some? { CAIsThere(f0, model, inv, t, issuedAt); }
  }

  // ---- revocation ----

  ghost predicate Since(log: seq<RetiredRecord>, account: string, k: Key, now: int, at: int)
  {
    exists r :: r in RecordsOf(log, account, k) && TimeOf(r, now) >= at
  }

  lemma RevocationsCover(log: seq<RetiredRecord>, account: string, now: int, m: map<Key, int>, k: Key, at: int)
    requires RevocationsOf(log, account, now, m)
    ensures k in m && m[k] >= at <==> Since(log, account, k, now, at)
  {
    hide TimeOf;
    LoggedIsRecorded(log, account, k);
    if Since(log, account, k, now, at) {
      var r :| r in RecordsOf(log, account, k) && TimeOf(r, now) >= at;
      assert Logged(log, account, k);
    }
  }

  /** The cabinet's key was kept, and was on record, with a time that is not over, when the run began. */
  ghost predicate KeptOnRecord(f: Files, g: Files, p: CabinetPath, rotating: bool, now: int)
  {
    var key := KeyAt(g, CabinetUser(p));
    !rotating && key.Good? && KeyAt(f, CabinetUser(p)) == key && Since(f.retired, AccountOf(p), key.value, now, now)
  }

  /** The credential a completed run issues to a cabinet is revoked exactly if its key is such a one. */
  lemma RevokedExactly(f: Files, g: Files, model: Model, inv: Inventory, t: Topology, spec: RotationSpec,
                       now: int, c: Cabinet, d: string)
    requires RunDone(f, g, model, Some(inv), t, spec, now) && c in inv.cabinets && Owns(t, d, c.partition)
    ensures var p := CabinetPath(d, c.id);
            CredsRevoked(g, p) <==> KeptOnRecord(f, g, p, c.id in spec.cabinets, now)
  {
    hide RecordsOf, RevocationsOf, Since, FitModel, Rotated, ConsumersTrusted, OperatorTrusted, Replaced, JwtInTheWay;
    var d2 :| CabinetDone(f, g, t, c, d2, spec, now);
    assert d2 == d;
    var p := CabinetPath(d, c.id);
    var j := CabinetAccountJwt(g, model, inv, t, spec, now, c, d);
    var u := g.creds[p].value.subject;
    RevocationsCover(g.retired, AccountOf(p), now, j.revocations, u, now);
    SameRecords(f, g, p, c.id in spec.cabinets, u, now);
  }

  /** The JWT that judges a cabinet's credentials. */
  lemma CabinetAccountJwt(g: Files, model: Model, inv: Inventory, t: Topology, spec: RotationSpec, now: int,
                          c: Cabinet, d: string)
    returns (j: AccountJwt)
    requires TrustChain(g, model, Some(inv), t, now) && InventoryOk(model, inv, t, spec)
    requires c in inv.cabinets && Owns(t, d, c.partition)
    ensures var root := KeyAt(g, AccountRoot(DistrictAccountName(d)));
            root.Good? && At(g.accountJwt, root.value) == Good(j)
                && RevocationsOf(g.retired, DistrictAccountName(d), now, j.revocations)
  {
    hide OperatorTrusted, ConsumersTrusted, CabinetTrusted, RevocationsOf;
    var k :| 0 <= k < |inv.cabinets| && inv.cabinets[k] == c;
    assert CabinetOk(model.dot, t, model.accounts, c);
    var a := FindAccount(model.accounts, DistrictAccountName(d)).value;
    assert AccountTrusted(g, a, now);
    j :| JwtOf(g, a, now, j) && At(g.accountJwt, j.subject) == Good(j);
  }

  lemma SameRecords(f: Files, g: Files, p: CabinetPath, rotating: bool, u: Key, now: int)
    requires RecordsExactly(f, g, p, rotating) && KeyAt(g, CabinetUser(p)) == Good(u)
    ensures Since(g.retired, AccountOf(p), u, now, now) <==>
              !rotating && KeyAt(f, CabinetUser(p)) == Good(u) && Since(f.retired, AccountOf(p), u, now, now)
  {
    hide RecordsOf, TimeOf;
  }

  /** The clock has moved past every record. */
  ghost predicate ClockAhead(f: Files, now: int)
  {
    forall r :: r in f.retired ==> r.rotatedAt.Some? && r.rotatedAt.value < now
  }

  lemma AheadIsUnrevoked(f: Files, g: Files, p: CabinetPath, rotating: bool, now: int)
    requires ClockAhead(f, now)
    ensures !KeptOnRecord(f, g, p, rotating, now)
  {
  }

  /** No credential of the inventory is revoked. */
  ghost predicate InventoryUnrevoked(f: Files, inv: Inventory, t: Topology)
  {
    forall c, d :: c in inv.cabinets && Owns(t, d, c.partition) ==> !CredsRevoked(f, CabinetPath(d, c.id))
  }

  ghost predicate InventoryRevocations(f: Files, g: Files, inv: Inventory, t: Topology, spec: RotationSpec, now: int)
  {
    forall c, d :: c in inv.cabinets && Owns(t, d, c.partition) ==>
      var p := CabinetPath(d, c.id);
      (CredsRevoked(g, p) <==> KeptOnRecord(f, g, p, c.id in spec.cabinets, now))
  }

  lemma AllRevokedExactly(f: Files, g: Files, model: Model, inv: Inventory, t: Topology, spec: RotationSpec, now: int)
    requires RunDone(f, g, model, Some(inv), t, spec, now)
    ensures InventoryRevocations(f, g, inv, t, spec, now)
    ensures ClockAhead(f, now) ==> InventoryUnrevoked(g, inv, t)
  {
    hide RunDone, CredsRevoked, KeptOnRecord, ClockAhead;
    forall c, d | c in inv.cabinets && Owns(t, d, c.partition)
      ensures var p := CabinetPath(d, c.id); CredsRevoked(g, p) <==> KeptOnRecord(f, g, p, c.id in spec.cabinets, now)
      ensures ClockAhead(f, now) ==> !CredsRevoked(g, CabinetPath(d, c.id))
    {
      RevokedExactly(f, g, model, inv, t, spec, now, c, d);
      if ClockAhead(f, now) { AheadIsUnrevoked(f, g, CabinetPath(d, c.id), c.id in spec.cabinets, now); }
    }
  }

  /** A key is revoked for everything issued up to `at`. */
  ghost predicate RevokedUpTo(f: Files, account: string, k: Key, at: int)
  {
    var root := KeyAt(f, AccountRoot(account));
    && root.Good? && At(f.accountJwt, root.value).Good?
    && var m := f.accountJwt[root.value].value.revocations; k in m && m[k] >= at
  }

  /** Every key the log retires is revoked in the JWT of its account, as of the time on record. */
  ghost predicate RetiredRevoked(log: seq<RetiredRecord>, f: Files, model: Model, now: int)
  {
    forall r, a :: r in log && a in model.accounts && r.account == a.name && r.oldUserPub.Some? ==>
      RevokedUpTo(f, a.name, r.oldUserPub.value, TimeOf(r, now))
  }

  /** Whatever was on record before a completed run is revoked after it. */
  lemma RetiredStaysRevoked(log: seq<RetiredRecord>, f: Files, model: Model, inv: Option<Inventory>,
                            t: Topology, now: int)
    requires TrustChain(f, model, inv, t, now) && log <= f.retired
    ensures RetiredRevoked(log, f, model, now)
  {
    hide TimeOf, OperatorTrusted, ConsumersTrusted, CabinetTrusted, RevocationsOf, ImportsResolved;
    forall r, a | r in log && a in model.accounts && r.account == a.name && r.oldUserPub.Some?
      ensures RevokedUpTo(f, a.name, r.oldUserPub.value, TimeOf(r, now))
    {
      assert r in f.retired;
      assert AccountTrusted(f, a, now);
      var j: AccountJwt :| JwtOf(f, a, now, j) && At(f.accountJwt, j.subject) == Good(j);
      assert r in RecordsOf(f.retired, a.name, r.oldUserPub.value);
      RevocationsCover(f.retired, a.name, now, j.revocations, r.oldUserPub.value, TimeOf(r, now));
    }
  }

  /** One run of a history: its arguments, and how many writes the machine gets to make. */
  datatype Job = Job(model: Model, inv: Option<Inventory>, topo: Topology, spec: RotationSpec, now: int, writes: nat)

  ghost predicate WellPosed(j: Job)
  {
    DistinctNames(j.model.accounts) && (j.inv.Some? ==> Loaded(j.inv.value))
  }

  // ---- histories of runs ----

  /** One run of a history: the files it found and left, and whether it completed. */
  datatype Ran = Ran(job: Job, before: Files, after: Files, completed: bool)

  ghost predicate RunOf(x: Ran)
  {
    var j := x.job;
    && Kept(x.before, x.after, j.spec) && Stamped(x.before, x.after, j.spec.cabinets, j.now)
    && (x.completed ==> RunDone(x.before, x.after, j.model, j.inv, j.topo, j.spec, j.now))
  }

  ghost predicate HistoryOf(f: Files, runs: seq<Ran>, g: Files)
  {
    && (forall i :: 0 <= i < |runs| ==> RunOf(runs[i]))
    && (forall i :: 0 < i < |runs| ==> runs[i].before == runs[i - 1].after)
    && if runs == [] then f == g else runs[0].before == f && runs[|runs| - 1].after == g
  }

  lemma NoRunsYet(f: Files)
    ensures HistoryOf(f, [], f) && KeptThrough(f, f, [])
  {
  }

  lemma HistoryNext(f: Files, runs: seq<Ran>, g: Files, x: Ran)
    requires HistoryOf(f, runs, g) && RunOf(x) && x.before == g
    ensures HistoryOf(f, runs + [x], x.after)
  {
    hide RunOf;
  }

  /** Each run starts later than the one before it, and later than anything on record at the start. */
  ghost predicate Ticking(f: Files, runs: seq<Ran>)
  {
    && (runs != [] ==> ClockAhead(f, runs[0].job.now))
    && forall i :: 0 < i < |runs| ==> runs[i - 1].job.now < runs[i].job.now
  }

  lemma {:induction false} TickingIsAhead(f: Files, runs: seq<Ran>, g: Files, i: nat)
    requires HistoryOf(f, runs, g) && Ticking(f, runs) && i < |runs|
    ensures ClockAhead(runs[i].before, runs[i].job.now)
  {
    if i > 0 {
      TickingIsAhead(f, runs, g, i - 1);
      var x := runs[i - 1];
      assert RunOf(x);
      forall r | r in x.after.retired ensures r.rotatedAt.Some? && r.rotatedAt.value < runs[i].job.now {
        var k :| 0 <= k < |x.after.retired| && x.after.retired[k] == r;
        if k < |x.before.retired| { assert x.before.retired[k] == r; }
      }
    }
  }

  /**
    Over any history, cut runs included, with a clock that moves between runs: no completed run leaves
    a credential of its inventory revoked.
   */
  lemma NeverRevoked(f: Files, runs: seq<Ran>, g: Files, i: nat)
    requires HistoryOf(f, runs, g) && Ticking(f, runs) && i < |runs| && runs[i].completed && runs[i].job.inv.Some?
    ensures InventoryUnrevoked(runs[i].after, runs[i].job.inv.value, runs[i].job.topo)
  {
    hide RunDone, ClockAhead, InventoryUnrevoked, InventoryRevocations;
    TickingIsAhead(f, runs, g, i);
    var x := runs[i];
    assert RunOf(x);
    AllRevokedExactly(x.before, x.after, x.job.model, x.job.inv.value, x.job.topo, x.job.spec, x.job.now);
  }

  lemma {:induction false} LogGrows(f: Files, runs: seq<Ran>, g: Files, i: nat, j: nat)
    requires HistoryOf(f, runs, g) && i <= j < |runs|
    ensures runs[i].before.retired <= runs[j].after.retired
  {
    assert RunOf(runs[j]);
    if i < j { LogGrows(f, runs, g, i, j - 1); }
  }

  /** A key on record when some run begins is revoked by every later run that completes. */
  lemma RevokedForGood(f: Files, runs: seq<Ran>, g: Files, i: nat, j: nat)
    requires HistoryOf(f, runs, g) && i <= j < |runs| && runs[j].completed
    ensures RetiredRevoked(runs[i].before.retired, runs[j].after, runs[j].job.model, runs[j].job.now)
  {
    hide TrustChain, RetiredRevoked, InventoryDone;
    LogGrows(f, runs, g, i, j);
    var x := runs[j];
    assert RunOf(x);
    RetiredStaysRevoked(runs[i].before.retired, x.after, x.job.model, x.job.inv, x.job.topo, x.job.now);
  }

  // ---- keys over a history ----

  ghost predicate Untargeted(jobs: seq<Job>, s: Slot)
  {
    forall j :: j in jobs ==> !Targeted(j.spec, s)
  }

  ghost predicate NeverRotated(jobs: seq<Job>, id: string)
  {
    forall j :: j in jobs ==> id !in j.spec.cabinets
  }

  /** Keys that no job names stay: seeds, leaf keys, and the CA in any case. */
  ghost predicate KeptThrough(f: Files, g: Files, jobs: seq<Job>)
  {
    && (forall s :: KeyAt(f, s) != Missing && Untargeted(jobs, s) ==> KeyAt(g, s) == KeyAt(f, s))
    && (forall p :: At(f.leaf, p) != Missing && NeverRotated(jobs, p.id) ==> At(g.leaf, p) == At(f.leaf, p))
    && CAKept(f, g)
  }

  lemma KeptOnce(f: Files, g: Files, jobs: seq<Job>, x: Ran)
    requires KeptThrough(f, g, jobs) && x.before == g && RunOf(x)
    ensures KeptThrough(f, x.after, jobs + [x.job])
  {
    hide RunDone, Stamped;
    var h, j := x.after, x.job;
    assert forall i :: i in jobs + [j] <==> i in jobs || i == j;
    forall s | KeyAt(f, s) != Missing && Untargeted(jobs + [j], s) ensures KeyAt(h, s) == KeyAt(f, s) {
      assert j in jobs + [j] && Untargeted(jobs, s);
    }
    forall p | At(f.leaf, p) != Missing && NeverRotated(jobs + [j], p.id) ensures At(h.leaf, p) == At(f.leaf, p) {
      assert j in jobs + [j] && NeverRotated(jobs, p.id);
    }
  }
}

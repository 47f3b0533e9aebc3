/** What one actuator call guarantees under arbitrary faults: soundness of a nil error,
    progress, the fixpoint, independence of target order, and isolation of namespaces. */
module Convergence {
  import opened Kube
  import opened Actuator
  import opened Fanout
  import opened Ordering

  predicate On(cfg: Config, s: Server, r: Ref) {
    r in s.configMaps && DataOn(cfg, s.configMaps[r])
  }

  predicate Stamped(cfg: Config, s: Server, d: Ref) {
    d in s.deployments && TemplateStamped(cfg, s.deployments[d].template)
  }

  predicate Converged(cfg: Config, s: Server) {
    && (forall r :: r in cfg.configMaps ==> On(cfg, s, r))
    && (forall d :: d in cfg.deployments ==> Stamped(cfg, s, d))
  }

  predicate TargetsExist(cfg: Config, s: Server) {
    && (forall r :: r in cfg.configMaps ==> r in s.configMaps)
    && (forall d :: d in cfg.deployments ==> d in s.deployments)
  }

  /** The targets the switch still has to move: ConfigMaps off the secondary, and
      Deployments not stamped with it. */
  function MapsLeft(cfg: Config, s: Server): set<Ref> {
    set r | r in cfg.configMaps && !On(cfg, s, r)
  }

  function RollsLeft(cfg: Config, s: Server): set<Ref> {
    set d | d in cfg.deployments && !Stamped(cfg, s, d)
  }

  function Left(cfg: Config, s: Server): nat {
    |MapsLeft(cfg, s)| + |RollsLeft(cfg, s)|
  }

  lemma SubsetCard<T>(a: set<T>, b: set<T>)
    requires a <= b
    ensures |a| <= |b| && (|a| == |b| ==> a == b)
  {
    assert b == a + (b - a);
  }

  lemma NothingLeft(cfg: Config, s: Server)
    ensures Left(cfg, s) == 0 <==> Converged(cfg, s)
  {
    if Left(cfg, s) == 0 {
      assert MapsLeft(cfg, s) == {} && RollsLeft(cfg, s) == {};
      forall r | r in cfg.configMaps ensures On(cfg, s, r) { assert r !in MapsLeft(cfg, s); }
      forall d | d in cfg.deployments ensures Stamped(cfg, s, d) { assert d !in RollsLeft(cfg, s); }
    }
    if Converged(cfg, s) {
      assert MapsLeft(cfg, s) == {} && RollsLeft(cfg, s) == {};
    }
  }

  /** The ledger the roll phase is given in a call. */
  function CallLedger(cfg: Config, f: Faults, s: Server): Ledger {
    PatchAll(cfg, f, cfg.configMaps, s).led
  }

  /** A call that writes, read declaratively: both halves of the server after it, which
      failures it reports, and when it reports a change. */
  lemma SwitchMeaning(cfg: Config, f: Faults, stamp: string, s: Server)
    requires cfg.configMaps != [] && !cfg.dryRun
    ensures var c, led, t := SwitchCall(cfg, f, stamp, s), CallLedger(cfg, f, s),
                             s.(configMaps := PatchedMaps(cfg, f, cfg.configMaps, s));
      && PatchMeans(cfg, f, cfg.configMaps, s, PatchAll(cfg, f, cfg.configMaps, s))
      && c.server == t.(deployments := RolledDeployments(cfg, f, led, stamp, cfg.deployments, t))
      && (c.switched <==> c.errs == [] && exists r :: r in cfg.configMaps && Behind(cfg, f, s, r))
      && (forall e :: e in c.errs <==> || (PatchFails(cfg, f, s, e) && e.ref in cfg.configMaps)
                                       || (RollFails(cfg, f, led, t, e) && e.ref in cfg.deployments))
  {
    PatchMeaning(cfg, f, cfg.configMaps, s);
    var p := PatchAll(cfg, f, cfg.configMaps, s);
    RollMeaning(cfg, f, p.led, stamp, cfg.deployments, p.server);
  }

  /** A call that writes returns nil iff no target is stuck in its phase. */
  lemma NilErrorIff(cfg: Config, f: Faults, stamp: string, s: Server)
    requires cfg.configMaps != [] && !cfg.dryRun
    ensures var led, t := CallLedger(cfg, f, s), s.(configMaps := PatchedMaps(cfg, f, cfg.configMaps, s));
      SwitchCall(cfg, f, stamp, s).errs == [] <==>
        && (forall r :: r in cfg.configMaps ==> !Stuck(cfg, f, s, r))
        && (forall d :: d in cfg.deployments ==> !RollStuck(cfg, f, led, t, d))
  {
    var p := PatchAll(cfg, f, cfg.configMaps, s);
    PatchMeaning(cfg, f, cfg.configMaps, s);
    PatchNilIff(cfg, f, cfg.configMaps, s, p);
    RollMeaning(cfg, f, p.led, stamp, cfg.deployments, p.server);
    RollNilIff(cfg, f, p.led, stamp, cfg.deployments, p.server,
               RollAll(cfg, f, p.led, stamp, cfg.deployments, p.server));
  }

  /** With distinct targets the joined errors are one per failing target, the ConfigMaps in
      order before the Deployments in order. */
  lemma ErrorsInOrder(cfg: Config, f: Faults, stamp: string, s: Server)
    requires cfg.configMaps != [] && !cfg.dryRun && Distinct(cfg.configMaps) && Distinct(cfg.deployments)
    ensures var led, t := CallLedger(cfg, f, s), s.(configMaps := PatchedMaps(cfg, f, cfg.configMaps, s));
      SwitchCall(cfg, f, stamp, s).errs
      == PatchFailures(cfg, f, cfg.configMaps, s) + RollFailures(cfg, f, led, cfg.deployments, t)
  {
    PatchMeaning(cfg, f, cfg.configMaps, s);
    PatchLists(cfg, f, cfg.configMaps, s);
    var p := PatchAll(cfg, f, cfg.configMaps, s);
    RollLists(cfg, f, p.led, stamp, cfg.deployments, p.server);
  }

  /** A dry run writes nothing, whatever it reports; it reports a switch exactly when a
      readable ConfigMap target is off the secondary. */
  lemma DryRunWritesNothing(cfg: Config, f: Faults, stamp: string, s: Server)
    requires cfg.dryRun
    ensures SwitchCall(cfg, f, stamp, s).server == s
    ensures SwitchCall(cfg, f, stamp, s).switched <==> exists r :: r in cfg.configMaps && Behind(cfg, f, s, r)
  {
    PatchMeaning(cfg, f, cfg.configMaps, s);
    assert PatchedMaps(cfg, f, cfg.configMaps, s) == s.configMaps;
  }

  lemma NilErrorNoneStuck(cfg: Config, f: Faults, stamp: string, s: Server)
    requires !cfg.dryRun && SwitchCall(cfg, f, stamp, s).errs == []
    ensures var led, t := CallLedger(cfg, f, s), s.(configMaps := PatchedMaps(cfg, f, cfg.configMaps, s));
      && led.failedNS == {} && (forall r :: r in cfg.configMaps ==> !Stuck(cfg, f, s, r))
      && (forall d :: d in cfg.deployments ==> !RollStuck(cfg, f, led, t, d))
      && SwitchCall(cfg, f, stamp, s).server
         == t.(deployments := RolledDeployments(cfg, f, led, stamp, cfg.deployments, t))
  {
    SwitchMeaning(cfg, f, stamp, s);
    NilErrorIff(cfg, f, stamp, s);
  }

  /** Outside dry run a nil error means every target has been moved. */
  lemma NilErrorConverges(cfg: Config, f: Faults, stamp: string, s: Server)
    requires !cfg.dryRun && SwitchCall(cfg, f, stamp, s).errs == []
    ensures Converged(cfg, SwitchCall(cfg, f, stamp, s).server)
  {
    NilErrorNoneStuck(cfg, f, stamp, s);
    var c, led := SwitchCall(cfg, f, stamp, s), CallLedger(cfg, f, s);
    var t := s.(configMaps := PatchedMaps(cfg, f, cfg.configMaps, s));
    forall r | r in cfg.configMaps ensures On(cfg, c.server, r) {
      assert !Stuck(cfg, f, s, r);
    }
    forall d | d in cfg.deployments ensures Stamped(cfg, c.server, d) {
      assert !RollStuck(cfg, f, led, t, d);
    }
  }

  /** Without faults on existing targets one call converges and reports no error, and says
      "switched" exactly when a ConfigMap was off the secondary. */
  lemma FaultFreeConverges(cfg: Config, f: Faults, stamp: string, s: Server)
    requires cfg.configMaps != [] && !cfg.dryRun && TargetsExist(cfg, s)
    requires forall op :: op in f ==> f[op] == Served
    ensures var c := SwitchCall(cfg, f, stamp, s);
      c.errs == [] && Converged(cfg, c.server) && (c.switched <==> MapsLeft(cfg, s) != {})
  {
    SwitchMeaning(cfg, f, stamp, s);
    NilErrorIff(cfg, f, stamp, s);
    NilErrorConverges(cfg, f, stamp, s);
    if exists r :: r in cfg.configMaps && Behind(cfg, f, s, r) {
      var r :| r in cfg.configMaps && Behind(cfg, f, s, r);
      assert r in MapsLeft(cfg, s);
    } else {
      assert MapsLeft(cfg, s) == {};
    }
  }

  lemma CallShrinks(cfg: Config, f: Faults, stamp: string, s: Server)
    ensures var t := SwitchCall(cfg, f, stamp, s).server;
      MapsLeft(cfg, t) <= MapsLeft(cfg, s) && RollsLeft(cfg, t) <= RollsLeft(cfg, s)
  {
    if cfg.dryRun {
      DryRunWritesNothing(cfg, f, stamp, s);
    } else if cfg.configMaps != [] {
      CallServer(cfg, f, stamp, s);
    }
  }

  /** Under any faults no target is ever moved back, and a call that changes the server at
      all moves at least one target for good. */
  lemma CallProgress(cfg: Config, f: Faults, stamp: string, s: Server)
    ensures var t := SwitchCall(cfg, f, stamp, s).server;
      && MapsLeft(cfg, t) <= MapsLeft(cfg, s) && RollsLeft(cfg, t) <= RollsLeft(cfg, s)
      && Left(cfg, t) <= Left(cfg, s)
      && (t != s <==> Left(cfg, t) < Left(cfg, s))
  {
    var t := SwitchCall(cfg, f, stamp, s).server;
    CallShrinks(cfg, f, stamp, s);
    SubsetCard(MapsLeft(cfg, t), MapsLeft(cfg, s));
    SubsetCard(RollsLeft(cfg, t), RollsLeft(cfg, s));
    if MapsLeft(cfg, t) == MapsLeft(cfg, s) && RollsLeft(cfg, t) == RollsLeft(cfg, s) {
      NoMoveNoChange(cfg, f, stamp, s);
    }
  }

  lemma NoMoveNoChange(cfg: Config, f: Faults, stamp: string, s: Server)
    requires var t := SwitchCall(cfg, f, stamp, s).server;
      MapsLeft(cfg, t) == MapsLeft(cfg, s) && RollsLeft(cfg, t) == RollsLeft(cfg, s)
    ensures SwitchCall(cfg, f, stamp, s).server == s
  {
    if cfg.dryRun {
      DryRunWritesNothing(cfg, f, stamp, s);
    } else if cfg.configMaps != [] {
      CallServer(cfg, f, stamp, s);
      NothingPatched(cfg, f, stamp, s);
      NothingRolled(cfg, f, stamp, s);
    }
  }

  lemma NothingPatched(cfg: Config, f: Faults, stamp: string, s: Server)
    requires cfg.configMaps != [] && !cfg.dryRun
    requires MapsLeft(cfg, SwitchCall(cfg, f, stamp, s).server) == MapsLeft(cfg, s)
    ensures PatchedMaps(cfg, f, cfg.configMaps, s) == s.configMaps && MovedNS(cfg, f, cfg.configMaps, s) == {}
  {
    CallServer(cfg, f, stamp, s);
    var t := SwitchCall(cfg, f, stamp, s).server;
    forall r | r in cfg.configMaps ensures !Repointed(cfg, f, s, r) {
      assert Repointed(cfg, f, s, r) ==> r in MapsLeft(cfg, s) && r !in MapsLeft(cfg, t);
    }
  }

  lemma NothingRolled(cfg: Config, f: Faults, stamp: string, s: Server)
    requires cfg.configMaps != [] && !cfg.dryRun
    requires PatchedMaps(cfg, f, cfg.configMaps, s) == s.configMaps && MovedNS(cfg, f, cfg.configMaps, s) == {}
    requires RollsLeft(cfg, SwitchCall(cfg, f, stamp, s).server) == RollsLeft(cfg, s)
    ensures RolledDeployments(cfg, f, CallLedger(cfg, f, s), stamp, cfg.deployments, s) == s.deployments
  {
    CallServer(cfg, f, stamp, s);
    var t, led := SwitchCall(cfg, f, stamp, s).server, CallLedger(cfg, f, s);
    forall d | d in cfg.deployments ensures !Rolled(cfg, f, led, s, d) {
      assert Rolled(cfg, f, led, s, d) ==> d in RollsLeft(cfg, s) && d !in RollsLeft(cfg, t);
    }
  }

  /** Once converged, no call under any faults changes anything or reports a switch; without
      faults it also returns nil. */
  lemma Fixpoint(cfg: Config, f: Faults, stamp: string, s: Server)
    requires Converged(cfg, s)
    ensures SwitchCall(cfg, f, stamp, s).server == s
    ensures !SwitchCall(cfg, f, stamp, s).switched
    ensures cfg.configMaps != [] && (forall op :: op in f ==> f[op] == Served) ==>
      SwitchCall(cfg, f, stamp, s).errs == []
  {
    CallProgress(cfg, f, stamp, s);
    NothingLeft(cfg, s);
    PatchMeaning(cfg, f, cfg.configMaps, s);
    PatchNilIff(cfg, f, cfg.configMaps, s, PatchAll(cfg, f, cfg.configMaps, s));
    if cfg.configMaps != [] && !cfg.dryRun {
      SwitchMeaning(cfg, f, stamp, s);
      NilErrorIff(cfg, f, stamp, s);
    }
  }

  /** Two servers agree on a namespace, as far as that namespace's pods can tell. */
  ghost predicate AgreeMaps(x: map<Ref, Fields>, y: map<Ref, Fields>, ns: string) {
    forall r: Ref :: r.ns == ns ==> (r in x <==> r in y) && (r in x ==> x[r] == y[r])
  }

  ghost predicate AgreeDeployment(x: Server, y: Server, d: Ref) {
    && (d in x.deployments <==> d in y.deployments)
    && (d in x.deployments ==>
      && x.deployments[d].template == y.deployments[d].template
      && x.deployments[d].rolls == y.deployments[d].rolls
      && AgreeMaps(x.deployments[d].podsRead, y.deployments[d].podsRead, d.ns))
  }

  ghost predicate AgreeOn(x: Server, y: Server, ns: string) {
    && AgreeMaps(x.configMaps, y.configMaps, ns)
    && (forall d: Ref :: d.ns == ns ==> AgreeDeployment(x, y, d))
  }

  /** Two configurations and fault sets that coincide on one namespace. */
  ghost predicate AgreeInputs(a: Config, b: Config, f: Faults, g: Faults, ns: string) {
    && a == b.(configMaps := a.configMaps, deployments := a.deployments)
    && (forall r: Ref :: r.ns == ns ==> (r in a.configMaps <==> r in b.configMaps))
    && (forall r: Ref :: r.ns == ns ==> (r in a.deployments <==> r in b.deployments))
    && (forall v, r: Ref :: r.ns == ns ==> Fate(f, v, r) == Fate(g, v, r))
  }

  lemma NamespaceSets(a: Config, b: Config, f: Faults, g: Faults, x: Server, y: Server, ns: string)
    requires AgreeInputs(a, b, f, g, ns) && AgreeOn(x, y, ns)
    ensures ns in StuckNS(a, f, a.configMaps, x) <==> ns in StuckNS(b, g, b.configMaps, y)
    ensures ns in MovedNS(a, f, a.configMaps, x) <==> ns in MovedNS(b, g, b.configMaps, y)
  {
    forall r: Ref | r.ns == ns
      ensures Behind(a, f, x, r) == Behind(b, g, y, r)
      ensures Stuck(a, f, x, r) == Stuck(b, g, y, r)
      ensures Acknowledged(a, f, x, r) == Acknowledged(b, g, y, r)
    {
      assert Fate(f, GetConfigMap, r) == Fate(g, GetConfigMap, r);
    }
  }

  lemma PatchIsolated(a: Config, b: Config, f: Faults, g: Faults, x: Server, y: Server, ns: string)
    requires AgreeInputs(a, b, f, g, ns) && AgreeOn(x, y, ns)
    ensures AgreeMaps(PatchedMaps(a, f, a.configMaps, x), PatchedMaps(b, g, b.configMaps, y), ns)
  {
    var m, n := PatchedMaps(a, f, a.configMaps, x), PatchedMaps(b, g, b.configMaps, y);
    forall r: Ref | r.ns == ns ensures (r in m <==> r in n) && (r in m ==> m[r] == n[r]) {
      assert Fate(f, GetConfigMap, r) == Fate(g, GetConfigMap, r);
      assert Fate(f, UpdateConfigMap, r) == Fate(g, UpdateConfigMap, r);
    }
  }

  lemma RollIsolated(
    a: Config, b: Config, f: Faults, g: Faults, k: Ledger, l: Ledger, stamp: string, x: Server, y: Server, d: Ref)
    requires AgreeInputs(a, b, f, g, d.ns) && AgreeOn(x, y, d.ns)
    requires (d.ns in k.failedNS <==> d.ns in l.failedNS) && (d.ns in k.patchedNS <==> d.ns in l.patchedNS)
    ensures AgreeDeployment(
      x.(deployments := RolledDeployments(a, f, k, stamp, a.deployments, x)),
      y.(deployments := RolledDeployments(b, g, l, stamp, b.deployments, y)), d)
  {
    RolledAlike(a, b, f, g, k, l, x, y, d);
    assert AgreeDeployment(x, y, d);
    if d in x.deployments {
      RestartedAlike(a, b, stamp, x, y, d);
    }
  }

  lemma RestartedAlike(a: Config, b: Config, stamp: string, x: Server, y: Server, d: Ref)
    requires a.secondary == b.secondary && AgreeMaps(x.configMaps, y.configMaps, d.ns)
    requires d in x.deployments && AgreeDeployment(x, y, d)
    ensures var t, u := Restarted(a, x, d, stamp), Restarted(b, y, d, stamp);
      t.template == u.template && t.rolls == u.rolls && AgreeMaps(t.podsRead, u.podsRead, d.ns)
  {
  }

  lemma RolledAlike(a: Config, b: Config, f: Faults, g: Faults, k: Ledger, l: Ledger, x: Server, y: Server, d: Ref)
    requires AgreeInputs(a, b, f, g, d.ns) && AgreeOn(x, y, d.ns)
    requires (d.ns in k.failedNS <==> d.ns in l.failedNS) && (d.ns in k.patchedNS <==> d.ns in l.patchedNS)
    ensures d in a.deployments && Rolled(a, f, k, x, d) <==> d in b.deployments && Rolled(b, g, l, y, d)
  {
    assert AgreeDeployment(x, y, d);
    assert Fate(f, GetDeployment, d) == Fate(g, GetDeployment, d);
    assert Fate(f, UpdateDeployment, d) == Fate(g, UpdateDeployment, d);
  }

  /** Isolation: what a call does in a namespace depends on that namespace's targets, faults
      and objects alone, provided both calls get past the check for an empty list. */
  lemma NamespaceIsolation(
    a: Config, b: Config, f: Faults, g: Faults, stamp: string, x: Server, y: Server, ns: string)
    requires AgreeInputs(a, b, f, g, ns) && AgreeOn(x, y, ns)
    requires !a.dryRun ==> (a.configMaps == [] <==> b.configMaps == [])
    ensures AgreeOn(SwitchCall(a, f, stamp, x).server, SwitchCall(b, g, stamp, y).server, ns)
  {
    if a.dryRun {
      DryRunWritesNothing(a, f, stamp, x);
      DryRunWritesNothing(b, g, stamp, y);
    } else if a.configMaps != [] {
      NamespaceSets(a, b, f, g, x, y, ns);
      PatchIsolated(a, b, f, g, x, y, ns);
      CallServer(a, f, stamp, x);
      CallServer(b, g, stamp, y);
      var t := x.(configMaps := PatchedMaps(a, f, a.configMaps, x));
      var u := y.(configMaps := PatchedMaps(b, g, b.configMaps, y));
      assert AgreeOn(t, u, ns) by {
        forall d: Ref | d.ns == ns ensures AgreeDeployment(t, u, d) { assert AgreeDeployment(x, y, d); }
      }
      forall d: Ref | d.ns == ns
        ensures AgreeDeployment(SwitchCall(a, f, stamp, x).server, SwitchCall(b, g, stamp, y).server, d)
      {
        RollIsolated(a, b, f, g, CallLedger(a, f, x), CallLedger(b, g, y), stamp, t, u, d);
      }
    }
  }

  lemma CallServer(cfg: Config, f: Faults, stamp: string, s: Server)
    requires cfg.configMaps != [] && !cfg.dryRun
    ensures var led, t := CallLedger(cfg, f, s), s.(configMaps := PatchedMaps(cfg, f, cfg.configMaps, s));
      && led.failedNS == StuckNS(cfg, f, cfg.configMaps, s) && led.patchedNS == MovedNS(cfg, f, cfg.configMaps, s)
      && SwitchCall(cfg, f, stamp, s).server
         == t.(deployments := RolledDeployments(cfg, f, led, stamp, cfg.deployments, t))
  {
    SwitchMeaning(cfg, f, stamp, s);
  }

  function OnlyIn(refs: seq<Ref>, ns: string): (r: seq<Ref>)
    ensures forall x :: x in r <==> x in refs && x.ns == ns
  {
    if refs == [] then []
    else (if refs[0].ns == ns then [refs[0]] else []) + OnlyIn(refs[1..], ns)
  }

  /** Running the call on one namespace's targets only does to that namespace what the
      whole call does to it. */
  lemma NamespaceAlone(cfg: Config, f: Faults, stamp: string, s: Server, ns: string)
    requires exists r :: r in cfg.configMaps && r.ns == ns
    ensures var alone := cfg.(configMaps := OnlyIn(cfg.configMaps, ns), deployments := OnlyIn(cfg.deployments, ns));
      AgreeOn(SwitchCall(cfg, f, stamp, s).server, SwitchCall(alone, f, stamp, s).server, ns)
  {
    var alone := cfg.(configMaps := OnlyIn(cfg.configMaps, ns), deployments := OnlyIn(cfg.deployments, ns));
    NamespaceIsolation(cfg, alone, f, f, stamp, s, s, ns);
  }

  /** The order of the targets and repeated entries change neither the server afterwards,
      nor the reported change, nor which failures are reported. */
  lemma OrderIrrelevant(a: Config, b: Config, f: Faults, stamp: string, s: Server)
    requires a == b.(configMaps := a.configMaps, deployments := a.deployments)
    requires forall r :: r in a.configMaps <==> r in b.configMaps
    requires forall d :: d in a.deployments <==> d in b.deployments
    ensures var x, y := SwitchCall(a, f, stamp, s), SwitchCall(b, f, stamp, s);
      x.server == y.server && x.switched == y.switched && forall e :: e in x.errs <==> e in y.errs
  {
    EmptyTogether(a.configMaps, b.configMaps);
    PatchOrder(a, b, f, s);
    var x, y := SwitchCall(a, f, stamp, s), SwitchCall(b, f, stamp, s);
    if !a.dryRun {
      var p, q := PatchAll(a, f, a.configMaps, s), PatchAll(b, f, b.configMaps, s);
      RollOrder(a, b, f, p.led, q.led, stamp, p.server);
    }
    assert forall e :: e in x.errs <==> e in y.errs;
    EmptyTogether(x.errs, y.errs);
  }

  lemma EmptyTogether<T>(a: seq<T>, b: seq<T>)
    requires forall x :: x in a <==> x in b
    ensures a == [] <==> b == []
  {
    if a != [] { assert a[0] in b; }
    if b != [] { assert b[0] in a; }
  }

  lemma PatchOrder(a: Config, b: Config, f: Faults, s: Server)
    requires a == b.(configMaps := a.configMaps, deployments := a.deployments)
    requires forall r :: r in a.configMaps <==> r in b.configMaps
    ensures var p, q := PatchAll(a, f, a.configMaps, s), PatchAll(b, f, b.configMaps, s);
      && p.server == q.server && p.led.failedNS == q.led.failedNS && p.led.patchedNS == q.led.patchedNS
      && (p.led.pending > 0 <==> q.led.pending > 0) && forall e :: e in p.led.errs <==> e in q.led.errs
  {
    PatchMeaning(a, f, a.configMaps, s);
    PatchMeaning(b, f, b.configMaps, s);
    SamePatch(a, b, f, s, PatchAll(a, f, a.configMaps, s));
  }

  lemma SamePatch(a: Config, b: Config, f: Faults, s: Server, p: Patch)
    requires a == b.(configMaps := a.configMaps, deployments := a.deployments)
    requires forall r :: r in a.configMaps <==> r in b.configMaps
    requires PatchMeans(a, f, a.configMaps, s, p)
    ensures PatchMeans(b, f, b.configMaps, s, p)
  {
    assert PatchedMaps(a, f, a.configMaps, s) == PatchedMaps(b, f, b.configMaps, s);
    SameJudgements(a, b, f, s);
  }

  lemma SameJudgements(a: Config, b: Config, f: Faults, s: Server)
    requires a == b.(configMaps := a.configMaps, deployments := a.deployments)
    requires forall r :: r in a.configMaps <==> r in b.configMaps
    ensures StuckNS(a, f, a.configMaps, s) == StuckNS(b, f, b.configMaps, s)
    ensures MovedNS(a, f, a.configMaps, s) == MovedNS(b, f, b.configMaps, s)
    ensures (exists r :: r in a.configMaps && Behind(a, f, s, r))
       <==> (exists r :: r in b.configMaps && Behind(b, f, s, r))
  {
    assert forall r :: Behind(a, f, s, r) == Behind(b, f, s, r);
    assert forall r :: Stuck(a, f, s, r) == Stuck(b, f, s, r);
    assert forall r :: Acknowledged(a, f, s, r) == Acknowledged(b, f, s, r);
  }

  lemma RollOrder(a: Config, b: Config, f: Faults, k: Ledger, l: Ledger, stamp: string, s: Server)
    requires a == b.(configMaps := a.configMaps, deployments := a.deployments)
    requires forall d :: d in a.deployments <==> d in b.deployments
    requires k.failedNS == l.failedNS && k.patchedNS == l.patchedNS
    ensures var p, q := RollAll(a, f, k, stamp, a.deployments, s), RollAll(b, f, l, stamp, b.deployments, s);
      p.server == q.server && forall e :: e in p.errs <==> e in q.errs
  {
    RollMeaning(a, f, k, stamp, a.deployments, s);
    RollMeaning(b, f, l, stamp, b.deployments, s);
    SameRoll(a, b, f, k, l, stamp, s, RollAll(a, f, k, stamp, a.deployments, s));
  }

  lemma SameRoll(a: Config, b: Config, f: Faults, k: Ledger, l: Ledger, stamp: string, s: Server, r: Roll)
    requires a == b.(configMaps := a.configMaps, deployments := a.deployments)
    requires forall d :: d in a.deployments <==> d in b.deployments
    requires k.failedNS == l.failedNS && k.patchedNS == l.patchedNS
    requires RollMeans(a, f, k, stamp, a.deployments, s, r)
    ensures RollMeans(b, f, l, stamp, b.deployments, s, r)
  {
    assert forall d :: Rolled(a, f, k, s, d) == Rolled(b, f, l, s, d);
    assert forall d :: RollStuck(a, f, k, s, d) == RollStuck(b, f, l, s, d);
    assert forall d :: RollServed(a, f, k, s, d) == RollServed(b, f, l, s, d);
    assert RolledDeployments(a, f, k, stamp, a.deployments, s) == RolledDeployments(b, f, l, stamp, b.deployments, s);
  }
}

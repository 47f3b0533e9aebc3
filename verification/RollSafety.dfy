/** What every run of the protocol keeps: how a Deployment can differ from what it was at
    the start, through any faults and crashes. */
module RollSafety {
  import opened Kube
  import opened Actuator
  import opened Convergence
  import opened Protocol
  import opened Fanout

  /** Every ConfigMap target of the namespace holds the secondary. */
  predicate MapsOn(cfg: Config, maps: map<Ref, Fields>, ns: string) {
    forall r :: r in cfg.configMaps && r.ns == ns ==> r in maps && DataOn(cfg, maps[r])
  }

  /** A Deployment as it was, or rolled exactly once since: stamped, started on the
      secondary, and with its namespace still there. */
  predicate AsWasOrRolled(cfg: Config, s0: Server, s: Server, d: Ref) {
    d in s0.deployments ==>
      && d in s.deployments
      && (|| s.deployments[d] == s0.deployments[d]
          || (&& s.deployments[d].rolls == s0.deployments[d].rolls + 1
              && TemplateStamped(cfg, s.deployments[d].template)
              && MapsOn(cfg, s.deployments[d].podsRead, d.ns)
              && MapsOn(cfg, s.configMaps, d.ns)))
  }

  /** A ConfigMap as it was, or a target repointed to the secondary. */
  predicate AsWasOrRepointed(cfg: Config, s0: Server, s: Server, r: Ref) {
    r in s0.configMaps ==>
      && r in s.configMaps
      && (|| s.configMaps[r] == s0.configMaps[r]
          || (r in cfg.configMaps && s.configMaps[r] == Repoint(cfg, s0.configMaps[r])))
  }

  ghost predicate History(cfg: Config, s0: Server, s: Server) {
    && s.configMaps.Keys == s0.configMaps.Keys && s.deployments.Keys == s0.deployments.Keys
    && (forall d :: AsWasOrRolled(cfg, s0, s, d))
    && (forall r :: AsWasOrRepointed(cfg, s0, s, r))
  }

  predicate Changed(s0: Server, s: Server, d: Ref) {
    d in s.deployments && (d in s0.deployments ==> s.deployments[d] != s0.deployments[d])
  }

  /** Up to target `i` of the patch phase: what was not converged is on the ledger. */
  predicate Patched(cfg: Config, s: Server, led: Ledger, i: nat) {
    && i <= |cfg.configMaps|
    && (forall k :: 0 <= k < i ==>
          cfg.dryRun || cfg.configMaps[k].ns in led.failedNS || On(cfg, s, cfg.configMaps[k]))
    && (led.errs == [] ==> led.failedNS == {})
  }

  ghost predicate Patching(cfg: Config, s0: Server, s: Server, led: Ledger, i: nat) {
    Patched(cfg, s, led, i) && forall d :: Changed(s0, s, d) ==> d.ns !in led.patchedNS
  }

  ghost predicate Rolling(
    cfg: Config, s0: Server, s: Server, led: Ledger, stamp: string, errs: seq<Failure>, i: nat)
  {
    && !cfg.dryRun && Patched(cfg, s, led, |cfg.configMaps|) && i <= |cfg.deployments|
    && (led.errs + errs == [] ==> forall k :: 0 <= k < i ==> Stamped(cfg, s, cfg.deployments[k]))
    && (forall d :: Changed(s0, s, d) && d.ns in led.patchedNS ==>
          Stamp(cfg, s.deployments[d].template, stamp) == s.deployments[d].template)
  }

  ghost predicate PhaseOk(cfg: Config, s0: Server, s: Server, phase: Phase) {
    match phase
    case Idle => true
    case GetCm(i, led) => Patching(cfg, s0, s, led, i)
    case PutCm(i, led, data) =>
      && Patching(cfg, s0, s, led, i) && i < |cfg.configMaps|
      && cfg.configMaps[i] in s.configMaps && !On(cfg, s, cfg.configMaps[i])
      && data == Repoint(cfg, s.configMaps[cfg.configMaps[i]])
    case GetDep(i, led, stamp, _, errs) => Rolling(cfg, s0, s, led, stamp, errs, i)
    case PutDep(i, led, stamp, _, errs, template) =>
      && Rolling(cfg, s0, s, led, stamp, errs, i) && i < |cfg.deployments|
      && var d := cfg.deployments[i];
         && d.ns !in led.failedNS && d in s.deployments
         && template == Stamp(cfg, s.deployments[d].template, stamp)
         && (d.ns in led.patchedNS || !Stamped(cfg, s, d))
  }

  ghost predicate Inv(cfg: Config, s0: Server, w: World) {
    && History(cfg, s0, w.server)
    && PhaseOk(cfg, s0, w.server, w.phase)
    && (w.clean ==> Converged(cfg, w.server))
  }

  lemma StepKeepsInv(cfg: Config, s0: Server, w: World, e: Event)
    requires Inv(cfg, s0, w)
    ensures Inv(cfg, s0, Next(cfg, w, e))
  {
    match (w.phase, e)
    case (PutCm(i, led, data), Api(o)) => WriteConfigMapKeepsInv(cfg, s0, w, o);
    case (PutDep(i, led, stamp, n, errs, template), Api(o)) => WriteDeploymentKeepsInv(cfg, s0, w, o);
    case (GetDep(i, led, stamp, n, errs), _) => DeploymentStepKeepsInv(cfg, s0, w, e);
    case (GetCm(i, led), Api(o)) => ReadConfigMapKeepsInv(cfg, s0, w, o);
    case (GetCm(i, led), _) =>
    case _ =>
  }

  lemma ReadConfigMapKeepsInv(cfg: Config, s0: Server, w: World, o: Outcome)
    requires Inv(cfg, s0, w) && w.phase.GetCm?
    ensures Inv(cfg, s0, Next(cfg, w, Api(o)))
  {
    var i, led, w' := w.phase.i, w.phase.led, Next(cfg, w, Api(o));
    if i < |cfg.configMaps| {
      var r := cfg.configMaps[i];
      var led' := w'.phase.led;
      assert w'.server == w.server && led.failedNS <= led'.failedNS && led'.patchedNS == led.patchedNS;
      if w'.phase.GetCm? {
        assert cfg.dryRun || r.ns in led'.failedNS || On(cfg, w.server, r);
        assert forall k :: 0 <= k < i + 1 ==> k < i || cfg.configMaps[k] == r;
      }
    }
  }

  lemma DeploymentStepKeepsInv(cfg: Config, s0: Server, w: World, e: Event)
    requires Inv(cfg, s0, w) && w.phase.GetDep?
    ensures Inv(cfg, s0, Next(cfg, w, e))
  {
  }

  lemma WriteConfigMapKeepsInv(cfg: Config, s0: Server, w: World, o: Outcome)
    requires Inv(cfg, s0, w) && w.phase.PutCm?
    ensures Inv(cfg, s0, Next(cfg, w, Api(o)))
  {
    var i, led, s, t := w.phase.i, w.phase.led, w.server, Next(cfg, w, Api(o)).server;
    var r := cfg.configMaps[i];
    forall x ensures On(cfg, s, x) ==> On(cfg, t, x) {}
    forall ns | MapsOn(cfg, s.configMaps, ns) ensures MapsOn(cfg, t.configMaps, ns) && ns != r.ns {
      assert r in cfg.configMaps;
    }
    forall d ensures AsWasOrRolled(cfg, s0, t, d) {
      assert AsWasOrRolled(cfg, s0, s, d);
    }
    forall x ensures AsWasOrRepointed(cfg, s0, t, x) {
      assert AsWasOrRepointed(cfg, s0, s, x);
    }
    forall d | Changed(s0, t, d) ensures d.ns != r.ns {
      assert AsWasOrRolled(cfg, s0, s, d);
    }
  }

  lemma WriteDeploymentKeepsInv(cfg: Config, s0: Server, w: World, o: Outcome)
    requires Inv(cfg, s0, w) && w.phase.PutDep?
    ensures Inv(cfg, s0, Next(cfg, w, Api(o)))
  {
    var i, led, s, t := w.phase.i, w.phase.led, w.server, Next(cfg, w, Api(o)).server;
    var d, template := cfg.deployments[i], w.phase.template;
    assert t == PutTemplate(s, d, template, o);
    if t != s {
      RollIsFirst(cfg, s0, w);
      FirstRollKeepsHistory(cfg, s0, s, d, template);
      forall x ensures Stamped(cfg, s, x) ==> Stamped(cfg, t, x) {}
      StampTwice(cfg, s.deployments[d].template, w.phase.stamp);
    }
    assert o != Refused ==> Stamped(cfg, t, d);
  }

  /** A roll that changes the template finds the Deployment as it was at the start, with
      every ConfigMap target of its namespace on the secondary. */
  lemma RollIsFirst(cfg: Config, s0: Server, w: World)
    requires Inv(cfg, s0, w) && w.phase.PutDep?
    requires var d := cfg.deployments[w.phase.i]; w.phase.template != w.server.deployments[d].template
    ensures var d := cfg.deployments[w.phase.i];
      d in s0.deployments && w.server.deployments[d] == s0.deployments[d] && MapsOn(cfg, w.server.configMaps, d.ns)
  {
    assert AsWasOrRolled(cfg, s0, w.server, cfg.deployments[w.phase.i]);
  }

  lemma FirstRollKeepsHistory(cfg: Config, s0: Server, s: Server, d: Ref, template: Fields)
    requires History(cfg, s0, s) && d in s0.deployments && s.deployments[d] == s0.deployments[d]
    requires MapsOn(cfg, s.configMaps, d.ns) && TemplateStamped(cfg, template)
    ensures History(cfg, s0, PutTemplate(s, d, template, Served))
  {
    var t := PutTemplate(s, d, template, Served);
    forall x ensures AsWasOrRolled(cfg, s0, t, x) {
      assert AsWasOrRolled(cfg, s0, s, x);
    }
    forall r ensures AsWasOrRepointed(cfg, s0, t, r) {
      assert AsWasOrRepointed(cfg, s0, s, r);
    }
  }

  lemma {:induction false} RunKeepsInv(cfg: Config, s0: Server, events: seq<Event>)
    ensures Inv(cfg, s0, Run(cfg, Start(s0), events))
  {
    if events != [] {
      var init := events[..|events| - 1];
      RunKeepsInv(cfg, s0, init);
      StepKeepsInv(cfg, s0, Run(cfg, Start(s0), init), events[|events| - 1]);
    }
  }

  /** The process is not about to send an Update and has seen none acknowledged. */
  predicate Quiet(phase: Phase) {
    match phase
    case Idle => true
    case GetCm(_, led) => led.patchedNS == {}
    case GetDep(_, led, _, _, _) => led.patchedNS == {}
    case _ => false
  }

  lemma StepStaysQuiet(cfg: Config, w: World, e: Event)
    requires cfg.dryRun || Converged(cfg, w.server)
    requires Quiet(w.phase) && (cfg.dryRun ==> !w.phase.GetDep?)
    ensures var v := Next(cfg, w, e); Quiet(v.phase) && v.server == w.server && (cfg.dryRun ==> !v.phase.GetDep?)
  {
    if w.phase.GetCm? && w.phase.i < |cfg.configMaps| {
      assert !cfg.dryRun ==> On(cfg, w.server, cfg.configMaps[w.phase.i]);
    }
    if w.phase.GetDep? && w.phase.i < |cfg.deployments| {
      assert Stamped(cfg, w.server, cfg.deployments[w.phase.i]);
    }
  }

  /** From a converged server, or in a dry run, no run is ever about to send an Update,
      whatever the requests meet. */
  lemma {:induction false} NoUpdateIsSent(cfg: Config, s: Server, events: seq<Event>)
    requires cfg.dryRun || Converged(cfg, s)
    ensures var w := Run(cfg, Start(s), events); !w.phase.PutCm? && !w.phase.PutDep? && w.server == s
    ensures var w := Run(cfg, Start(s), events); Quiet(w.phase) && (cfg.dryRun ==> !w.phase.GetDep?)
  {
    if events != [] {
      NoUpdateIsSent(cfg, s, events[..|events| - 1]);
      StepStaysQuiet(cfg, Run(cfg, Start(s), events[..|events| - 1]), events[|events| - 1]);
    }
  }
}

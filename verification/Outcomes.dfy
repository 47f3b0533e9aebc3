/** What one actuator call does, object by object and key by key, read off the inputs alone. */
module Outcomes {
  import opened Kube
  import opened Actuator
  import opened Fanout
  import opened Convergence

  predicate Unread(f: Faults, s: Server, r: Ref) {
    r !in s.configMaps || Fate(f, Verb.GetConfigMap, r) != Served
  }

  /** The key holds another value, or is missing while the secondary is not empty. */
  predicate OffSecondary(cfg: Config, data: Fields) {
    if cfg.configKey in data then data[cfg.configKey] != cfg.secondary else cfg.secondary != ""
  }

  predicate Unmarked(cfg: Config, template: Fields) {
    if ANN_SWITCHED_TO in template then template[ANN_SWITCHED_TO] != cfg.secondary else cfg.secondary != ""
  }

  /** Some ConfigMap target of the namespace could not be read or moved. */
  predicate NamespaceStuck(cfg: Config, f: Faults, s: Server, ns: string) {
    exists r :: r in cfg.configMaps && r.ns == ns
      && (Unread(f, s, r) || (OffSecondary(cfg, s.configMaps[r]) && Fate(f, Verb.UpdateConfigMap, r) != Served))
  }

  /** Some ConfigMap target of the namespace was off the secondary and its move acknowledged. */
  predicate NamespaceMoved(cfg: Config, f: Faults, s: Server, ns: string) {
    exists r :: r in cfg.configMaps && r.ns == ns
      && !Unread(f, s, r) && OffSecondary(cfg, s.configMaps[r]) && Fate(f, Verb.UpdateConfigMap, r) == Served
  }

  predicate Moved(cfg: Config, f: Faults, s: Server, r: Ref) {
    && !cfg.dryRun && r in cfg.configMaps && !Unread(f, s, r) && OffSecondary(cfg, s.configMaps[r])
    && Fate(f, Verb.UpdateConfigMap, r) != Refused
  }

  /** The Deployment is read in the roll phase. */
  predicate Visited(cfg: Config, f: Faults, s: Server, d: Ref) {
    !cfg.dryRun && cfg.configMaps != [] && d in cfg.deployments && !NamespaceStuck(cfg, f, s, d.ns)
  }

  /** An update of the Deployment is sent. */
  predicate Sent(cfg: Config, f: Faults, s: Server, d: Ref) {
    && Visited(cfg, f, s, d) && d in s.deployments && Fate(f, Verb.GetDeployment, d) == Served
    && (NamespaceMoved(cfg, f, s, d.ns) || Unmarked(cfg, s.deployments[d].template))
  }

  // ----- the readings agree -----

  lemma SameReading(cfg: Config, f: Faults, s: Server, r: Ref)
    ensures Unread(f, s, r) <==> !Readable(f, s, r)
    ensures Behind(cfg, f, s, r) <==> !Unread(f, s, r) && OffSecondary(cfg, s.configMaps[r])
  {
  }

  lemma SameNamespaces(cfg: Config, f: Faults, s: Server, ns: string)
    requires !cfg.dryRun
    ensures NamespaceStuck(cfg, f, s, ns) <==> ns in StuckNS(cfg, f, cfg.configMaps, s)
    ensures NamespaceMoved(cfg, f, s, ns) <==> ns in MovedNS(cfg, f, cfg.configMaps, s)
  {
    forall r
      ensures Stuck(cfg, f, s, r) <==>
        Unread(f, s, r) || (OffSecondary(cfg, s.configMaps[r]) && Fate(f, Verb.UpdateConfigMap, r) != Served)
      ensures Acknowledged(cfg, f, s, r) <==>
        !Unread(f, s, r) && OffSecondary(cfg, s.configMaps[r]) && Fate(f, Verb.UpdateConfigMap, r) == Served
    {
      SameReading(cfg, f, s, r);
    }
  }

  /** The server the roll phase finds, and the ledger it is given. */
  function Between(cfg: Config, f: Faults, s: Server): Server {
    s.(configMaps := PatchedMaps(cfg, f, cfg.configMaps, s))
  }

  lemma SameRolls(cfg: Config, f: Faults, s: Server, d: Ref)
    requires !cfg.dryRun && cfg.configMaps != [] && d in cfg.deployments
    requires var led := CallLedger(cfg, f, s);
      led.failedNS == StuckNS(cfg, f, cfg.configMaps, s) && led.patchedNS == MovedNS(cfg, f, cfg.configMaps, s)
    ensures Sent(cfg, f, s, d) <==> NeedsRoll(cfg, f, CallLedger(cfg, f, s), Between(cfg, f, s), d)
    ensures d.ns in CallLedger(cfg, f, s).failedNS <==> NamespaceStuck(cfg, f, s, d.ns)
  {
    SameNamespaces(cfg, f, s, d.ns);
  }

  // ----- the objects -----

  /** A moved ConfigMap gets the secondary under the one key; every other key of it, and every
      other ConfigMap, stays as it was. */
  lemma ConfigMapAfterCall(cfg: Config, f: Faults, stamp: string, s: Server, r: Ref, key: string)
    ensures var t := SwitchCall(cfg, f, stamp, s).server;
      && (r in t.configMaps <==> r in s.configMaps)
      && (r in s.configMaps ==>
            var was, now := s.configMaps[r], t.configMaps[r];
            if Moved(cfg, f, s, r) && key == cfg.configKey then key in now && now[key] == cfg.secondary
            else (key in now <==> key in was) && (key in was ==> now[key] == was[key]))
  {
    SameReading(cfg, f, s, r);
    if cfg.dryRun {
      DryRunWritesNothing(cfg, f, stamp, s);
    } else if cfg.configMaps != [] {
      CallServer(cfg, f, stamp, s);
    }
  }

  /** A Deployment whose update is sent and not refused gets the two annotations, the second
      with the call's stamp, and keeps all others; if that changes its template it restarts
      once and its pods read the ConfigMaps as the call leaves them. Every other Deployment
      stays as it was. */
  lemma DeploymentAfterCall(cfg: Config, f: Faults, stamp: string, s: Server, d: Ref, key: string)
    ensures var t := SwitchCall(cfg, f, stamp, s).server;
      && (d in t.deployments <==> d in s.deployments)
      && (d in s.deployments ==>
            var was, now := s.deployments[d], t.deployments[d];
            if Sent(cfg, f, s, d) && Fate(f, Verb.UpdateDeployment, d) != Refused
            then Annotated(cfg, was.template, now.template, stamp, key) && RestartedIffChanged(t, was, now)
            else now == was)
  {
    if cfg.dryRun {
      DryRunWritesNothing(cfg, f, stamp, s);
    } else if cfg.configMaps != [] && d in cfg.deployments {
      CallServer(cfg, f, stamp, s);
      SameRolls(cfg, f, s, d);
    } else if cfg.configMaps != [] {
      CallServer(cfg, f, stamp, s);
    }
  }

  predicate Annotated(cfg: Config, was: Fields, now: Fields, stamp: string, key: string) {
    if key == ANN_SWITCHED_TO then key in now && now[key] == cfg.secondary
    else if key == ANN_RESTARTED_AT then key in now && now[key] == stamp
    else (key in now <==> key in was) && (key in was ==> now[key] == was[key])
  }

  predicate RestartedIffChanged(t: Server, was: Deployment, now: Deployment) {
    if now.template == was.template then now == was
    else now.rolls == was.rolls + 1 && now.podsRead == t.configMaps
  }

  /** A Deployment in a namespace that moved restarts even if it is stamped already, unless
      its last restart carries the very stamp of this call. */
  lemma MovedNamespaceRestarts(cfg: Config, f: Faults, stamp: string, s: Server, d: Ref)
    requires Visited(cfg, f, s, d) && NamespaceMoved(cfg, f, s, d.ns) && d in s.deployments
    requires Fate(f, Verb.GetDeployment, d) == Served && Fate(f, Verb.UpdateDeployment, d) != Refused
    requires !(ANN_RESTARTED_AT in s.deployments[d].template && s.deployments[d].template[ANN_RESTARTED_AT] == stamp)
    ensures var t := SwitchCall(cfg, f, stamp, s).server;
      && d in t.deployments && t.deployments[d].rolls == s.deployments[d].rolls + 1
      && t.deployments[d].podsRead == t.configMaps
  {
    DeploymentAfterCall(cfg, f, stamp, s, d, ANN_RESTARTED_AT);
  }

  // ----- the report -----

  /** Exactly these failures are reported, and a switch exactly when there are none and some
      ConfigMap was off the secondary. */
  lemma ReportOfCall(cfg: Config, f: Faults, stamp: string, s: Server, r: Ref)
    ensures var c := SwitchCall(cfg, f, stamp, s);
      && (NoConfigMap in c.errs <==> cfg.configMaps == [])
      && (Failed(Verb.GetConfigMap, r) in c.errs <==> r in cfg.configMaps && Unread(f, s, r))
      && (Failed(Verb.UpdateConfigMap, r) in c.errs <==>
            && !cfg.dryRun && r in cfg.configMaps && !Unread(f, s, r) && OffSecondary(cfg, s.configMaps[r])
            && Fate(f, Verb.UpdateConfigMap, r) != Served)
      && (Failed(Verb.GetDeployment, r) in c.errs <==>
            Visited(cfg, f, s, r) && (r !in s.deployments || Fate(f, Verb.GetDeployment, r) != Served))
      && (Failed(Verb.UpdateDeployment, r) in c.errs <==>
            Sent(cfg, f, s, r) && Fate(f, Verb.UpdateDeployment, r) != Served)
  {
    SameReading(cfg, f, s, r);
    PatchMeaning(cfg, f, cfg.configMaps, s);
    if cfg.configMaps != [] && !cfg.dryRun {
      SwitchMeaning(cfg, f, stamp, s);
      if r in cfg.deployments {
        SameRolls(cfg, f, s, r);
      }
    }
  }

  lemma SwitchedMeans(cfg: Config, f: Faults, stamp: string, s: Server)
    ensures var c := SwitchCall(cfg, f, stamp, s);
      c.switched <==>
        && (cfg.dryRun || c.errs == [])
        && exists r :: r in cfg.configMaps && !Unread(f, s, r) && OffSecondary(cfg, s.configMaps[r])
  {
    forall r ensures Behind(cfg, f, s, r) <==> !Unread(f, s, r) && OffSecondary(cfg, s.configMaps[r]) {
      SameReading(cfg, f, s, r);
    }
    if cfg.dryRun {
      DryRunWritesNothing(cfg, f, stamp, s);
    } else if cfg.configMaps != [] {
      SwitchMeaning(cfg, f, stamp, s);
    }
  }
}

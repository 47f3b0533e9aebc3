/** What a stamp says about the pods, over all runs with faults and crashes. */
module Honesty {
  import opened Kube
  import opened Actuator
  import opened Fanout
  import opened Convergence
  import opened Protocol
  import opened RollSafety
  import opened Refinement

  /** A stamped Deployment target last started when every ConfigMap target of its
      namespace held the secondary. */
  ghost predicate Honest(cfg: Config, s: Server) {
    forall d :: d in cfg.deployments && Stamped(cfg, s, d) ==> MapsOn(cfg, s.deployments[d].podsRead, d.ns)
  }

  /** The pods of every Deployment target read the secondary. */
  ghost predicate PodsFollow(cfg: Config, s: Server) {
    forall d :: d in cfg.deployments ==> d in s.deployments && MapsOn(cfg, s.deployments[d].podsRead, d.ns)
  }

  /** In every run the template of a Deployment changes at most once; exactly once if it
      started unstamped and some call outside dry run returned a nil error. */
  lemma RollsAtMostOnce(cfg: Config, s0: Server, events: seq<Event>, d: Ref)
    requires d in s0.deployments
    ensures var w := Run(cfg, Start(s0), events);
      && d in w.server.deployments
      && s0.deployments[d].rolls <= w.server.deployments[d].rolls <= s0.deployments[d].rolls + 1
      && (d in cfg.deployments && !Stamped(cfg, s0, d) && w.clean ==>
            w.server.deployments[d].rolls == s0.deployments[d].rolls + 1)
  {
    RunKeepsInv(cfg, s0, events);
    var w := Run(cfg, Start(s0), events);
    assert AsWasOrRolled(cfg, s0, w.server, d);
  }

  /** In every run a stamp that was not there at the start is honest, and the ConfigMap
      targets of that namespace hold the secondary from then on. */
  lemma StampHonesty(cfg: Config, s0: Server, events: seq<Event>, d: Ref)
    requires d in s0.deployments && !Stamped(cfg, s0, d)
    ensures var s := Run(cfg, Start(s0), events).server;
      Stamped(cfg, s, d) ==> MapsOn(cfg, s.deployments[d].podsRead, d.ns) && MapsOn(cfg, s.configMaps, d.ns)
  {
    RunKeepsInv(cfg, s0, events);
    assert AsWasOrRolled(cfg, s0, Run(cfg, Start(s0), events).server, d);
  }

  lemma HonestyKept(cfg: Config, s0: Server, events: seq<Event>)
    requires Honest(cfg, s0)
    ensures Honest(cfg, Run(cfg, Start(s0), events).server)
  {
    RunKeepsInv(cfg, s0, events);
    var s := Run(cfg, Start(s0), events).server;
    forall d | d in cfg.deployments && Stamped(cfg, s, d) ensures MapsOn(cfg, s.deployments[d].podsRead, d.ns) {
      assert AsWasOrRolled(cfg, s0, s, d);
    }
  }

  /** Whatever faults and crashes came before, one fault-free call converges. */
  lemma RecoversFromAnyRun(cfg: Config, s0: Server, events: seq<Event>, stamp: string)
    requires cfg.configMaps != [] && !cfg.dryRun && TargetsExist(cfg, s0)
    ensures var c := SwitchCall(cfg, map[], stamp, Run(cfg, Start(s0), events).server);
      c.errs == [] && Converged(cfg, c.server)
  {
    RunKeepsInv(cfg, s0, events);
    var w := Run(cfg, Start(s0), events);
    assert TargetsExist(cfg, w.server);
    FaultFreeConverges(cfg, map[], stamp, w.server);
  }

  /** A call that fails once on a Deployment, and the fault-free call that retries it. */
  function FailedRollThenRetry(cfg: Config, d: Ref, s: Server): seq<Event> {
    var f := map[Op(UpdateDeployment, d) := Refused];
    CallEvents(cfg, f, "", s) + CallEvents(cfg, map[], "", SwitchCall(cfg, f, "", s).server)
  }

  /** The first call patches everything and fails on the stamped Deployment alone. */
  lemma FailedRoll(cfg: Config, s: Server, d: Ref)
    requires cfg.configMaps != [] && !cfg.dryRun && TargetsExist(cfg, s)
    requires d in cfg.deployments && Stamped(cfg, s, d)
    ensures var t := SwitchCall(cfg, map[Op(UpdateDeployment, d) := Refused], "", s).server;
      && TargetsExist(cfg, t) && (forall r :: r in cfg.configMaps ==> On(cfg, t, r))
      && d in t.deployments && t.deployments[d] == s.deployments[d]
  {
    var f := map[Op(UpdateDeployment, d) := Refused];
    CallServer(cfg, f, "", s);
    forall r | r in cfg.configMaps ensures On(cfg, SwitchCall(cfg, f, "", s).server, r) {
      assert Fate(f, GetConfigMap, r) == Served && Fate(f, UpdateConfigMap, r) == Served;
    }
  }

  /** The retry finds nothing to patch, so it skips a stamped Deployment. */
  lemma RetrySkipsStamped(cfg: Config, s: Server, d: Ref)
    requires cfg.configMaps != [] && !cfg.dryRun && TargetsExist(cfg, s)
    requires d in cfg.deployments && Stamped(cfg, s, d) && forall r :: r in cfg.configMaps ==> On(cfg, s, r)
    ensures var c := SwitchCall(cfg, map[], "", s);
      c.errs == [] && d in c.server.deployments && c.server.deployments[d] == s.deployments[d]
  {
    CallServer(cfg, map[], "", s);
    assert MovedNS(cfg, map[], cfg.configMaps, s) == {};
    FaultFreeConverges(cfg, map[], "", s);
  }

  /** A Deployment that carried a dishonest stamp at the start is left as it is by that
      pair of calls, although the second returns a nil error. */
  lemma StaleStampSurvives(cfg: Config, s: Server, d: Ref)
    requires cfg.configMaps != [] && !cfg.dryRun && TargetsExist(cfg, s)
    requires d in cfg.deployments && Stamped(cfg, s, d)
    ensures var w := Run(cfg, Start(s), FailedRollThenRetry(cfg, d, s));
      w.clean && d in w.server.deployments && w.server.deployments[d] == s.deployments[d]
  {
    var f := map[Op(UpdateDeployment, d) := Refused];
    var one := SwitchCall(cfg, f, "", s);
    FailedRoll(cfg, s, d);
    RetrySkipsStamped(cfg, one.server, d);
    CallIsRun(cfg, f, "", Start(s));
    CallIsRun(cfg, map[], "", Run(cfg, Start(s), CallEvents(cfg, f, "", s)));
    RunAppend(cfg, Start(s), CallEvents(cfg, f, "", s), CallEvents(cfg, map[], "", one.server));
  }

  /** A switch whose ConfigMap was put back on the primary by hand, with the stamp left on
      the Deployment and its pods restarted on the primary. */
  function RewoundConfig(): Config {
    Config([Ref("app", "cb-conn")], "connstring", [Ref("app", "api")], "b", false)
  }

  function RewoundServer(): Server {
    Server(map[Ref("app", "cb-conn") := map["connstring" := "a"]],
           map[Ref("app", "api") := Deployment(map[ANN_SWITCHED_TO := "b"], 1,
                                               map[Ref("app", "cb-conn") := map["connstring" := "a"]])])
  }

  /** Concretely: the retry of a failed roll returns nil while the pods still read "a". */
  lemma RewoundExample()
    ensures var w := Run(RewoundConfig(), Start(RewoundServer()),
                         FailedRollThenRetry(RewoundConfig(), Ref("app", "api"), RewoundServer()));
      && w.clean && Ref("app", "api") in w.server.deployments
      && w.server.deployments[Ref("app", "api")].podsRead == map[Ref("app", "cb-conn") := map["connstring" := "a"]]
  {
    var cfg, s, d := RewoundConfig(), RewoundServer(), Ref("app", "api");
    assert d in s.deployments && Value(s.deployments[d].template, ANN_SWITCHED_TO) == "b";
    StaleStampSurvives(cfg, s, d);
  }

  /** A nil error tells what the pods read, on every run, exactly when no stamp was
      dishonest at the start. */
  lemma NilErrorMeansPodsFollow(cfg: Config, s: Server)
    requires cfg.configMaps != [] && !cfg.dryRun && TargetsExist(cfg, s)
    ensures Honest(cfg, s) <==>
      forall events :: var w := Run(cfg, Start(s), events); w.clean ==> PodsFollow(cfg, w.server)
  {
    if Honest(cfg, s) {
      forall events | Run(cfg, Start(s), events).clean ensures PodsFollow(cfg, Run(cfg, Start(s), events).server) {
        RunKeepsInv(cfg, s, events);
        HonestyKept(cfg, s, events);
      }
    } else {
      var d :| d in cfg.deployments && Stamped(cfg, s, d) && !MapsOn(cfg, s.deployments[d].podsRead, d.ns);
      StaleStampSurvives(cfg, s, d);
      var events := FailedRollThenRetry(cfg, d, s);
      assert !PodsFollow(cfg, Run(cfg, Start(s), events).server);
    }
  }
}

/** A call that runs to its end is one crash-free run of the protocol, so what every run
    keeps is kept by every call. */
module Refinement {
  import opened Kube
  import opened Actuator
  import opened Fanout
  import opened Protocol

  function PatchOneEvents(cfg: Config, f: Faults, ref: Ref, s: Server): seq<Event> {
    [Api(Fate(f, GetConfigMap, ref))]
    + if Behind(cfg, f, s, ref) && !cfg.dryRun then [Api(Fate(f, UpdateConfigMap, ref))] else []
  }

  function PatchEvents(cfg: Config, f: Faults, n: nat, s: Server): seq<Event>
    requires n <= |cfg.configMaps|
  {
    if n == 0 then []
    else PatchEvents(cfg, f, n - 1, s)
         + PatchOneEvents(cfg, f, cfg.configMaps[n - 1], PatchAll(cfg, f, cfg.configMaps[..n - 1], s).server)
  }

  function RollOneEvents(cfg: Config, f: Faults, led: Ledger, stamp: string, d: Ref, s: Server): seq<Event> {
    if d.ns in led.failedNS then [Proceed(stamp)]
    else [Api(Fate(f, GetDeployment, d))]
         + if NeedsRoll(cfg, f, led, s, d) then [Api(Fate(f, UpdateDeployment, d))] else []
  }

  function RollEvents(cfg: Config, f: Faults, led: Ledger, stamp: string, n: nat, s: Server): seq<Event>
    requires n <= |cfg.deployments|
  {
    if n == 0 then []
    else RollEvents(cfg, f, led, stamp, n - 1, s)
         + RollOneEvents(cfg, f, led, stamp, cfg.deployments[n - 1],
                         RollAll(cfg, f, led, stamp, cfg.deployments[..n - 1], s).server)
  }

  lemma RunOne(cfg: Config, w: World, e: Event)
    ensures Run(cfg, w, [e]) == Next(cfg, w, e)
  {
    assert [e][..0] == [];
  }

  lemma PatchOneRuns(cfg: Config, f: Faults, w: World, n: nat, p: Patch)
    requires n < |cfg.configMaps| && w.server == p.server && w.phase == GetCm(n, p.led)
    ensures var q := PatchOne(cfg, f, cfg.configMaps[n], p);
      Run(cfg, w, PatchOneEvents(cfg, f, cfg.configMaps[n], p.server))
      == w.(server := q.server, phase := GetCm(n + 1, q.led))
  {
    var ref := cfg.configMaps[n];
    var get, put := Api(Fate(f, GetConfigMap, ref)), Api(Fate(f, UpdateConfigMap, ref));
    RunOne(cfg, w, get);
    if Behind(cfg, f, p.server, ref) && !cfg.dryRun {
      RunAppend(cfg, w, [get], [put]);
      RunOne(cfg, Next(cfg, w, get), put);
    }
  }

  lemma {:induction false} PatchRuns(cfg: Config, f: Faults, w: World, n: nat)
    requires n <= |cfg.configMaps| && w.phase == GetCm(0, EMPTY_LEDGER)
    ensures var p := PatchAll(cfg, f, cfg.configMaps[..n], w.server);
      Run(cfg, w, PatchEvents(cfg, f, n, w.server)) == w.(server := p.server, phase := GetCm(n, p.led))
  {
    if n > 0 {
      PatchRuns(cfg, f, w, n - 1);
      var p := PatchAll(cfg, f, cfg.configMaps[..n - 1], w.server);
      assert cfg.configMaps[..n][..n - 1] == cfg.configMaps[..n - 1];
      PatchOneRuns(cfg, f, w.(server := p.server, phase := GetCm(n - 1, p.led)), n - 1, p);
      RunAppend(cfg, w, PatchEvents(cfg, f, n - 1, w.server), PatchOneEvents(cfg, f, cfg.configMaps[n - 1], p.server));
    }
  }

  /** Where the process stands when it comes to Deployment `n` of the roll phase. */
  function AtRoll(led: Ledger, stamp: string, w: World, n: nat, r: Roll): World {
    w.(server := r.server, phase := GetDep(n, led, stamp, r.rolled, r.errs))
  }

  lemma RollReads(cfg: Config, f: Faults, led: Ledger, stamp: string, w: World, n: nat, r: Roll)
    requires n < |cfg.deployments| && cfg.deployments[n].ns !in led.failedNS
    ensures var d := cfg.deployments[n];
      Next(cfg, AtRoll(led, stamp, w, n, r), Api(Fate(f, GetDeployment, d)))
      == if NeedsRoll(cfg, f, led, r.server, d)
         then AtRoll(led, stamp, w, n, r).(
           phase := PutDep(n, led, stamp, r.rolled, r.errs, Stamp(cfg, r.server.deployments[d].template, stamp)))
         else AtRoll(led, stamp, w, n + 1, RollOne(cfg, f, led, stamp, d, r))
  {
  }

  lemma RollWrites(cfg: Config, f: Faults, led: Ledger, stamp: string, w: World, n: nat, r: Roll)
    requires n < |cfg.deployments| && NeedsRoll(cfg, f, led, r.server, cfg.deployments[n])
    ensures var d := cfg.deployments[n];
      Next(cfg,
           AtRoll(led, stamp, w, n, r).(
             phase := PutDep(n, led, stamp, r.rolled, r.errs, Stamp(cfg, r.server.deployments[d].template, stamp))),
           Api(Fate(f, UpdateDeployment, d)))
      == AtRoll(led, stamp, w, n + 1, RollOne(cfg, f, led, stamp, d, r))
  {
  }

  lemma RollOneRuns(cfg: Config, f: Faults, led: Ledger, stamp: string, w: World, n: nat, r: Roll)
    requires n < |cfg.deployments|
    ensures Run(cfg, AtRoll(led, stamp, w, n, r), RollOneEvents(cfg, f, led, stamp, cfg.deployments[n], r.server))
         == AtRoll(led, stamp, w, n + 1, RollOne(cfg, f, led, stamp, cfg.deployments[n], r))
  {
    var d, v := cfg.deployments[n], AtRoll(led, stamp, w, n, r);
    if d.ns in led.failedNS {
      RunOne(cfg, v, Proceed(stamp));
    } else {
      var get, put := Api(Fate(f, GetDeployment, d)), Api(Fate(f, UpdateDeployment, d));
      RunOne(cfg, v, get);
      RollReads(cfg, f, led, stamp, w, n, r);
      if NeedsRoll(cfg, f, led, r.server, d) {
        RollWrites(cfg, f, led, stamp, w, n, r);
        RunOne(cfg, Next(cfg, v, get), put);
        RunThen(cfg, v, [get], Next(cfg, v, get), [put]);
      }
    }
  }

  lemma RunThen(cfg: Config, w: World, a: seq<Event>, v: World, b: seq<Event>)
    requires Run(cfg, w, a) == v
    ensures Run(cfg, w, a + b) == Run(cfg, v, b)
  {
    RunAppend(cfg, w, a, b);
  }

  lemma {:induction false} RollRuns(cfg: Config, f: Faults, led: Ledger, stamp: string, w: World, n: nat)
    requires n <= |cfg.deployments| && w.phase == GetDep(0, led, stamp, 0, [])
    ensures Run(cfg, w, RollEvents(cfg, f, led, stamp, n, w.server))
         == AtRoll(led, stamp, w, n, RollAll(cfg, f, led, stamp, cfg.deployments[..n], w.server))
  {
    if n > 0 {
      RollRuns(cfg, f, led, stamp, w, n - 1);
      var r := RollAll(cfg, f, led, stamp, cfg.deployments[..n - 1], w.server);
      assert cfg.deployments[..n][..n - 1] == cfg.deployments[..n - 1];
      RollOneRuns(cfg, f, led, stamp, w, n - 1, r);
      RunThen(cfg, w, RollEvents(cfg, f, led, stamp, n - 1, w.server), AtRoll(led, stamp, w, n - 1, r),
              RollOneEvents(cfg, f, led, stamp, cfg.deployments[n - 1], r.server));
    }
  }

  function PatchPhase(cfg: Config, f: Faults, stamp: string, s: Server): seq<Event>
    requires cfg.configMaps != []
  {
    [Begin] + PatchEvents(cfg, f, |cfg.configMaps|, s) + [Proceed(stamp)]
  }

  function RollPhase(cfg: Config, f: Faults, led: Ledger, stamp: string, s: Server): seq<Event> {
    RollEvents(cfg, f, led, stamp, |cfg.deployments|, s) + [Proceed(stamp)]
  }

  lemma PatchPhaseRuns(cfg: Config, f: Faults, stamp: string, w: World)
    requires w.phase == Idle && cfg.configMaps != []
    ensures var p := PatchAll(cfg, f, cfg.configMaps, w.server);
      Run(cfg, w, PatchPhase(cfg, f, stamp, w.server))
      == Next(cfg, w.(server := p.server, phase := GetCm(|cfg.configMaps|, p.led)), Proceed(stamp))
  {
    var patches := PatchEvents(cfg, f, |cfg.configMaps|, w.server);
    assert cfg.configMaps[..|cfg.configMaps|] == cfg.configMaps;
    RunOne(cfg, w, Begin);
    PatchRuns(cfg, f, Next(cfg, w, Begin), |cfg.configMaps|);
    RunAppend(cfg, w, [Begin], patches);
    RunAppend(cfg, w, [Begin] + patches, [Proceed(stamp)]);
    RunOne(cfg, Run(cfg, w, [Begin] + patches), Proceed(stamp));
  }

  lemma RollPhaseRuns(cfg: Config, f: Faults, led: Ledger, stamp: string, w: World)
    requires w.phase == GetDep(0, led, stamp, 0, [])
    ensures var r := RollAll(cfg, f, led, stamp, cfg.deployments, w.server);
      Run(cfg, w, RollPhase(cfg, f, led, stamp, w.server))
      == Return(cfg, w.(server := r.server), led.errs + r.errs == [] && led.pending > 0, led.errs + r.errs)
  {
    var n := |cfg.deployments|;
    var rolls, r := RollEvents(cfg, f, led, stamp, n, w.server), RollAll(cfg, f, led, stamp, cfg.deployments, w.server);
    assert cfg.deployments[..n] == cfg.deployments;
    RollRuns(cfg, f, led, stamp, w, n);
    RunThen(cfg, w, rolls, AtRoll(led, stamp, w, n, r), [Proceed(stamp)]);
    RunOne(cfg, AtRoll(led, stamp, w, n, r), Proceed(stamp));
  }

  /** The requests and replies of one call under the faults `f`. */
  function CallEvents(cfg: Config, f: Faults, stamp: string, s: Server): seq<Event> {
    if cfg.configMaps == [] then [Begin]
    else
      var p := PatchAll(cfg, f, cfg.configMaps, s);
      PatchPhase(cfg, f, stamp, s) + if cfg.dryRun then [] else RollPhase(cfg, f, p.led, stamp, p.server)
  }

  /** From an idle process the events of a call lead to exactly what SwitchCall says. */
  lemma CallIsRun(cfg: Config, f: Faults, stamp: string, w: World)
    requires w.phase == Idle
    ensures var c := SwitchCall(cfg, f, stamp, w.server);
      Run(cfg, w, CallEvents(cfg, f, stamp, w.server))
      == World(c.server, Idle, Result(c.switched, c.errs), w.clean || (!cfg.dryRun && c.errs == []))
  {
    if cfg.configMaps == [] {
      RunOne(cfg, w, Begin);
    } else {
      var p := PatchAll(cfg, f, cfg.configMaps, w.server);
      var patch := PatchPhase(cfg, f, stamp, w.server);
      PatchPhaseRuns(cfg, f, stamp, w);
      if cfg.dryRun {
        assert patch + [] == patch;
      } else {
        RollPhaseRuns(cfg, f, p.led, stamp, Run(cfg, w, patch));
        RunAppend(cfg, w, patch, RollPhase(cfg, f, p.led, stamp, p.server));
      }
    }
  }
}

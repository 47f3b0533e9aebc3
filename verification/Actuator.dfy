/** The fan-out actuator: patch every connstring ConfigMap, then roll the Deployments. */
module Actuator {
  import opened Kube

  const ANN_SWITCHED_TO := "observer/switched-to"
  const ANN_RESTARTED_AT := "observer/restartedAt"

  datatype Config = Config(
    configMaps: seq<Ref>, configKey: string, deployments: seq<Ref>, secondary: string, dryRun: bool)

  datatype Failure = NoConfigMap | Failed(verb: Verb, ref: Ref)

  /** The patch phase as the roll phase sees it: where something moved, where something is
      stuck, how many targets were off the secondary, and what failed. */
  datatype Ledger = Ledger(patchedNS: set<string>, failedNS: set<string>, pending: nat, errs: seq<Failure>)

  const EMPTY_LEDGER := Ledger({}, {}, 0, [])

  datatype Patch = Patch(server: Server, led: Ledger)
  datatype Roll = Roll(server: Server, rolled: nat, errs: seq<Failure>)
  datatype Call = Call(server: Server, switched: bool, errs: seq<Failure>)

  function Repoint(cfg: Config, data: Fields): Fields {
    data[cfg.configKey := cfg.secondary]
  }

  function Stamp(cfg: Config, template: Fields, stamp: string): Fields {
    template[ANN_SWITCHED_TO := cfg.secondary][ANN_RESTARTED_AT := stamp]
  }

  predicate DataOn(cfg: Config, data: Fields) {
    Value(data, cfg.configKey) == cfg.secondary
  }

  predicate TemplateStamped(cfg: Config, template: Fields) {
    Value(template, ANN_SWITCHED_TO) == cfg.secondary
  }

  /** One iteration of the patch phase. */
  function PatchOne(cfg: Config, f: Faults, ref: Ref, p: Patch): Patch {
    var s, led := p.server, p.led;
    if ref !in s.configMaps || Fate(f, GetConfigMap, ref) != Served then
      Patch(s, led.(errs := led.errs + [Failed(GetConfigMap, ref)], failedNS := led.failedNS + {ref.ns}))
    else if DataOn(cfg, s.configMaps[ref]) then p
    else
      var held := led.(pending := led.pending + 1);
      if cfg.dryRun then Patch(s, held)
      else
        var o := Fate(f, UpdateConfigMap, ref);
        Patch(PutConfigMap(s, ref, Repoint(cfg, s.configMaps[ref]), o),
              if o == Served then held.(patchedNS := held.patchedNS + {ref.ns})
              else held.(errs := held.errs + [Failed(UpdateConfigMap, ref)], failedNS := held.failedNS + {ref.ns}))
  }

  function PatchAll(cfg: Config, f: Faults, refs: seq<Ref>, s: Server): Patch {
    if refs == [] then Patch(s, EMPTY_LEDGER)
    else PatchOne(cfg, f, refs[|refs| - 1], PatchAll(cfg, f, refs[..|refs| - 1], s))
  }

  /** One iteration of the roll phase. */
  function RollOne(cfg: Config, f: Faults, led: Ledger, stamp: string, ref: Ref, r: Roll): Roll {
    var s := r.server;
    if ref.ns in led.failedNS then r
    else if ref !in s.deployments || Fate(f, GetDeployment, ref) != Served then
      r.(errs := r.errs + [Failed(GetDeployment, ref)])
    else
      var template := s.deployments[ref].template;
      if ref.ns !in led.patchedNS && TemplateStamped(cfg, template) then r
      else
        var o := Fate(f, UpdateDeployment, ref);
        var s' := PutTemplate(s, ref, Stamp(cfg, template, stamp), o);
        if o == Served then Roll(s', r.rolled + 1, r.errs)
        else Roll(s', r.rolled, r.errs + [Failed(UpdateDeployment, ref)])
  }

  function RollAll(cfg: Config, f: Faults, led: Ledger, stamp: string, refs: seq<Ref>, s: Server): Roll {
    if refs == [] then Roll(s, 0, [])
    else RollOne(cfg, f, led, stamp, refs[|refs| - 1], RollAll(cfg, f, led, stamp, refs[..|refs| - 1], s))
  }

  /** A whole call, as the composition of its two phases. */
  function SwitchCall(cfg: Config, f: Faults, stamp: string, s: Server): Call {
    if cfg.configMaps == [] then Call(s, false, [NoConfigMap])
    else
      var p := PatchAll(cfg, f, cfg.configMaps, s);
      if cfg.dryRun then Call(p.server, p.led.pending > 0, p.led.errs)
      else
        var r := RollAll(cfg, f, p.led, stamp, cfg.deployments, p.server);
        var errs := p.led.errs + r.errs;
        Call(r.server, errs == [] && p.led.pending > 0, errs)
  }

  class K8sActuator {
    const client: ApiServer
    const cfg: Config

    constructor (client: ApiServer, cfg: Config)
      ensures this.client == client && this.cfg == cfg
    {
      this.client, this.cfg := client, cfg;
    }

    /** Best effort over every target; `stamp` is what the injected clock would return. */
    method Switch(stamp: string) returns (switched: bool, errs: seq<Failure>)
      modifies client`state
      ensures Call(client.state, switched, errs) == SwitchCall(cfg, client.faults, stamp, old(client.state))
    {
      if |cfg.configMaps| == 0 {
        return false, [NoConfigMap];
      }
      var led := PatchConfigMaps();
      if cfg.dryRun {
        return led.pending > 0, led.errs;
      }
      var rolled, rollErrs := RollDeployments(led, stamp);
      errs := led.errs + rollErrs;
      switched := errs == [] && led.pending > 0;
    }

    method PatchConfigMaps() returns (led: Ledger)
      modifies client`state
      ensures Patch(client.state, led) == PatchAll(cfg, client.faults, cfg.configMaps, old(client.state))
    {
      led := EMPTY_LEDGER;
      for i := 0 to |cfg.configMaps|
        invariant Patch(client.state, led) == PatchAll(cfg, client.faults, cfg.configMaps[..i], old(client.state))
      {
        var ref := cfg.configMaps[i];
        assert cfg.configMaps[..i + 1][..i] == cfg.configMaps[..i];
        var cm := client.GetConfigMap(ref);
        if cm.Error? {
          led := led.(errs := led.errs + [Failed(GetConfigMap, ref)], failedNS := led.failedNS + {ref.ns});
          continue;
        }
        var data := cm.value;
        if Value(data, cfg.configKey) == cfg.secondary {
          continue;
        }
        led := led.(pending := led.pending + 1);
        if cfg.dryRun {
          continue;
        }
        data := data[cfg.configKey := cfg.secondary];
        var ok := client.UpdateConfigMap(ref, data);
        if !ok {
          led := led.(errs := led.errs + [Failed(UpdateConfigMap, ref)], failedNS := led.failedNS + {ref.ns});
          continue;
        }
        led := led.(patchedNS := led.patchedNS + {ref.ns});
      }
      assert cfg.configMaps[..|cfg.configMaps|] == cfg.configMaps;
    }

    method RollDeployments(led: Ledger, stamp: string) returns (rolled: nat, errs: seq<Failure>)
      modifies client`state
      ensures Roll(client.state, rolled, errs)
           == RollAll(cfg, client.faults, led, stamp, cfg.deployments, old(client.state))
    {
      rolled, errs := 0, [];
      for i := 0 to |cfg.deployments|
        invariant Roll(client.state, rolled, errs)
               == RollAll(cfg, client.faults, led, stamp, cfg.deployments[..i], old(client.state))
      {
        var ref := cfg.deployments[i];
        assert cfg.deployments[..i + 1][..i] == cfg.deployments[..i];
        if ref.ns in led.failedNS {
          continue;
        }
        var dep := client.GetDeployment(ref);
        if dep.Error? {
          errs := errs + [Failed(GetDeployment, ref)];
          continue;
        }
        var annotations := dep.value;
        if ref.ns !in led.patchedNS && Value(annotations, ANN_SWITCHED_TO) == cfg.secondary {
          continue;
        }
        annotations := annotations[ANN_SWITCHED_TO := cfg.secondary];
        annotations := annotations[ANN_RESTARTED_AT := stamp];
        var ok := client.UpdateDeployment(ref, annotations);
        if !ok {
          errs := errs + [Failed(UpdateDeployment, ref)];
          continue;
        }
        rolled := rolled + 1;
      }
      assert cfg.deployments[..|cfg.deployments|] == cfg.deployments;
    }
  }
}

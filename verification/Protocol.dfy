/** The actuator call one API request at a time, with the process allowed to die between
    any two of them. A run is any sequence of events from any server: calls begin, requests
    end in any way, the process crashes and starts over with its ledger lost. */
module Protocol {
  import opened Kube
  import opened Actuator

  /** Where a call stands. The `Put` phases hold the object about to be sent. */
  datatype Phase =
    | Idle
    | GetCm(i: nat, led: Ledger)
    | PutCm(i: nat, led: Ledger, data: Fields)
    | GetDep(i: nat, led: Ledger, stamp: string, rolled: nat, errs: seq<Failure>)
    | PutDep(i: nat, led: Ledger, stamp: string, rolled: nat, errs: seq<Failure>, template: Fields)

  /** `Begin` is the caller's; `Proceed` is a step between requests (the clock reading when
      it enters the roll phase); `Api` is the end of the pending request. */
  datatype Event = Begin | Api(outcome: Outcome) | Proceed(stamp: string) | Crash

  datatype Result = NoResult | Result(switched: bool, errs: seq<Failure>)

  /** `last` is the result of the last call that returned; `clean` records that some call
      outside dry run has returned a nil error. */
  datatype World = World(server: Server, phase: Phase, last: Result, clean: bool)

  function Start(s: Server): World {
    World(s, Idle, NoResult, false)
  }

  function Return(cfg: Config, w: World, switched: bool, errs: seq<Failure>): World {
    World(w.server, Idle, Result(switched, errs), w.clean || (!cfg.dryRun && errs == []))
  }

  function Next(cfg: Config, w: World, e: Event): World {
    match (w.phase, e)
    case (_, Crash) => w.(phase := Idle)
    case (Idle, Begin) =>
      if cfg.configMaps == [] then Return(cfg, w, false, [NoConfigMap])
      else w.(phase := GetCm(0, EMPTY_LEDGER))
    case (GetCm(i, led), Api(o)) => if i < |cfg.configMaps| then ReadConfigMap(cfg, w, i, led, o) else w
    case (PutCm(i, led, data), Api(o)) => if i < |cfg.configMaps| then WriteConfigMap(cfg, w, i, led, data, o) else w
    case (GetCm(i, led), Proceed(stamp)) =>
      if i < |cfg.configMaps| then w
      else if cfg.dryRun then Return(cfg, w, led.pending > 0, led.errs)
      else w.(phase := GetDep(0, led, stamp, 0, []))
    case (GetDep(i, led, stamp, n, errs), Proceed(_)) =>
      if i < |cfg.deployments| then
        if cfg.deployments[i].ns in led.failedNS then w.(phase := GetDep(i + 1, led, stamp, n, errs)) else w
      else Return(cfg, w, led.errs + errs == [] && led.pending > 0, led.errs + errs)
    case (GetDep(i, led, stamp, n, errs), Api(o)) =>
      if i < |cfg.deployments| && cfg.deployments[i].ns !in led.failedNS
      then ReadDeployment(cfg, w, i, led, stamp, n, errs, o) else w
    case (PutDep(i, led, stamp, n, errs, template), Api(o)) =>
      if i < |cfg.deployments| && cfg.deployments[i] in w.server.deployments
      then WriteDeployment(cfg, w, i, led, stamp, n, errs, template, o) else w
    case _ => w
  }

  function ReadConfigMap(cfg: Config, w: World, i: nat, led: Ledger, o: Outcome): World
    requires i < |cfg.configMaps|
  {
    var ref := cfg.configMaps[i];
    if ref !in w.server.configMaps || o != Served then
      var failed := led.(errs := led.errs + [Failed(GetConfigMap, ref)], failedNS := led.failedNS + {ref.ns});
      w.(phase := GetCm(i + 1, failed))
    else
      var data := w.server.configMaps[ref];
      if DataOn(cfg, data) then w.(phase := GetCm(i + 1, led))
      else
        var held := led.(pending := led.pending + 1);
        if cfg.dryRun then w.(phase := GetCm(i + 1, held))
        else w.(phase := PutCm(i, held, Repoint(cfg, data)))
  }

  function WriteConfigMap(cfg: Config, w: World, i: nat, led: Ledger, data: Fields, o: Outcome): World
    requires i < |cfg.configMaps|
  {
    var ref := cfg.configMaps[i];
    w.(server := PutConfigMap(w.server, ref, data, o),
       phase := GetCm(i + 1,
         if o == Served then led.(patchedNS := led.patchedNS + {ref.ns})
         else led.(errs := led.errs + [Failed(UpdateConfigMap, ref)], failedNS := led.failedNS + {ref.ns})))
  }

  function ReadDeployment(
    cfg: Config, w: World, i: nat, led: Ledger, stamp: string, n: nat, errs: seq<Failure>, o: Outcome): World
    requires i < |cfg.deployments|
  {
    var ref := cfg.deployments[i];
    if ref !in w.server.deployments || o != Served then
      w.(phase := GetDep(i + 1, led, stamp, n, errs + [Failed(GetDeployment, ref)]))
    else
      var template := w.server.deployments[ref].template;
      if ref.ns !in led.patchedNS && TemplateStamped(cfg, template) then
        w.(phase := GetDep(i + 1, led, stamp, n, errs))
      else w.(phase := PutDep(i, led, stamp, n, errs, Stamp(cfg, template, stamp)))
  }

  function WriteDeployment(
    cfg: Config, w: World, i: nat, led: Ledger, stamp: string, n: nat, errs: seq<Failure>, template: Fields, o: Outcome)
    : World
    requires i < |cfg.deployments| && cfg.deployments[i] in w.server.deployments
  {
    var ref := cfg.deployments[i];
    w.(server := PutTemplate(w.server, ref, template, o),
       phase := if o == Served then GetDep(i + 1, led, stamp, n + 1, errs)
                else GetDep(i + 1, led, stamp, n, errs + [Failed(UpdateDeployment, ref)]))
  }

  function Run(cfg: Config, w: World, events: seq<Event>): World {
    if events == [] then w
    else Next(cfg, Run(cfg, w, events[..|events| - 1]), events[|events| - 1])
  }

  lemma {:induction false} RunAppend(cfg: Config, w: World, a: seq<Event>, b: seq<Event>)
    ensures Run(cfg, w, a + b) == Run(cfg, Run(cfg, w, a), b)
    decreases |b|
  {
    if b == [] {
      assert a + b == a;
    } else {
      var c := b[..|b| - 1];
      assert (a + b)[..|a + b| - 1] == a + c;
      RunAppend(cfg, w, a, c);
    }
  }
}

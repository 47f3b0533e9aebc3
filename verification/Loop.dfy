/** The control loop: boot, poll, decide, actuate, latch. */
module Loop {
  import opened Ordering
  import opened Kube
  import opened Actuator
  import opened StateMachine
  import opened Health
  import opened Nodes
  import N = Notify

  datatype Role = Primary | Secondary

  /** What the shared prober points at; NoProber is the nil secondary prober. */
  datatype Target = PrimaryProber | SecondaryProber | NoProber

  /** The parsed configuration. `secondaryConnected` says whether connecting to the secondary
      at startup succeeded. */
  datatype Settings = Settings(
    k8s: bool, webhook: bool, targets: Config, critical: seq<string>, failoverDelay: int,
    secondaryConnected: bool, primaryDisp: string, secondaryDisp: string,
    primaryRegion: string, secondaryRegion: string, retries: int)

  predicate HasSecondaryProber(cfg: Settings) {
    cfg.targets.secondary != "" && cfg.secondaryConnected
  }

  datatype LastStatus = NoStatus | LastStatus(status: Status)

  datatype Baseline = NoBaseline | Baseline(hosts: set<string>)

  /** Everything the loop keeps between ticks, the two label sets of its metrics, and the
      cluster it acts on. */
  datatype LoopState = LoopState(
    role: Role, disp: string, region: string, target: Target, lastStatus: LastStatus, lastHosts: Baseline,
    machine: MachineState, up: map<string, bool>, gauge: map<string, bool>, server: Server)

  /** One tick's inputs: the clock the machine reads, what probing each cluster answers, and
      how the API and the webhook endpoint behave. */
  datatype TickInput = TickInput(
    clock: int, primary: seq<Probe>, secondary: seq<Probe>, faults: Faults, stamp: string, network: N.Network)

  /** The cluster-map lines of a tick: a first map, or a change (possibly empty). */
  datatype MapLog = NewMap(hosts: seq<string>) | Delta(added: seq<string>, removed: seq<string>)

  datatype Action = NoAction | Skipped | Held(status: Status) | Ran(latched: bool)

  datatype TickOut = TickOut(
    probed: Target, status: Status, mapLog: MapLog, countdown: bool, required: bool, action: Action)

  datatype Ticked = Ticked(state: LoopState, out: TickOut)

  // ----- boot -----

  /** The refs a startup read does not find on the secondary, unreadable ones included. */
  function StaleRefs(cfg: Config, f: Faults, refs: seq<Ref>, s: Server): seq<Ref> {
    if refs == [] then []
    else
      var r := refs[|refs| - 1];
      StaleRefs(cfg, f, refs[..|refs| - 1], s)
      + if r in s.configMaps && Fate(f, GetConfigMap, r) == Served && DataOn(cfg, s.configMaps[r]) then [] else [r]
  }

  datatype Reconciled = Reconciled(already: bool, stale: seq<Ref>)

  function Reconcile(cfg: Config, f: Faults, s: Server): Reconciled {
    if cfg.secondary == "" || cfg.configMaps == [] then Reconciled(false, [])
    else
      var stale := StaleRefs(cfg, f, cfg.configMaps, s);
      Reconciled(stale == [], stale)
  }

  method ReconcileAlreadySwitched(client: ApiServer, cfg: Config) returns (already: bool, stale: seq<Ref>)
    ensures Reconciled(already, stale) == Reconcile(cfg, client.faults, client.state)
  {
    stale := [];
    if cfg.secondary == "" || |cfg.configMaps| == 0 {
      return false, [];
    }
    for i := 0 to |cfg.configMaps|
      invariant stale == StaleRefs(cfg, client.faults, cfg.configMaps[..i], client.state)
    {
      assert cfg.configMaps[..i + 1][..i] == cfg.configMaps[..i];
      var ref := cfg.configMaps[i];
      var cm := client.GetConfigMap(ref);
      if cm.Error? {
        stale := stale + [ref];
        continue;
      }
      if Value(cm.value, cfg.configKey) != cfg.secondary {
        stale := stale + [ref];
      }
    }
    assert cfg.configMaps[..|cfg.configMaps|] == cfg.configMaps;
    already := |stale| == 0;
  }

  function Follow(cfg: Settings, st: LoopState): LoopState {
    st.(role := Secondary, disp := cfg.secondaryDisp, region := cfg.secondaryRegion,
        target := if HasSecondaryProber(cfg) then SecondaryProber else NoProber, lastHosts := NoBaseline)
  }

  function Boot(cfg: Settings, f: Faults, s: Server): LoopState {
    var already := cfg.k8s && Reconcile(cfg.targets, f, s).already;
    var st := LoopState(Primary, cfg.primaryDisp, cfg.primaryRegion, PrimaryProber, NoStatus, NoBaseline,
      Initial(already), map[], map[(if already then cfg.secondaryRegion else cfg.primaryRegion) := true], s);
    if already && HasSecondaryProber(cfg) then Follow(cfg, st) else st
  }

  // ----- one tick -----

  /** The services a prober pings. Any other service is in no round. */
  const PINGED: set<string> := {"kv", "query", "search", "analytics"}

  /** Both rounds are ones a prober can return. */
  predicate Receivable(input: TickInput) {
    Services(input.primary) <= PINGED && Services(input.secondary) <= PINGED
  }

  predicate AllReceivable(inputs: seq<TickInput>) {
    forall i :: 0 <= i < |inputs| ==> Receivable(inputs[i])
  }

  function RoundOf(target: Target, input: TickInput): seq<Probe> {
    if target == SecondaryProber then input.secondary else input.primary
  }

  predicate SecondaryReady(status: Status) {
    status != Down
  }

  function SecondaryStatus(cfg: Settings, input: TickInput): Status {
    if HasSecondaryProber(cfg) then GlobalStatus(input.secondary, cfg.critical) else Down
  }

  function WebhookResult(cfg: Settings, input: TickInput): N.Result {
    if cfg.targets.dryRun then N.Delivered else N.ResultOf(input.network, cfg.retries)
  }

  datatype Actuation = Actuation(server: Server, latch: bool, dropped: bool)

  /** Every enabled path is taken; the latch follows Kubernetes when it is enabled and the
      webhook otherwise. `dropped` is the webhook_dropped line. */
  function Actuate(cfg: Settings, input: TickInput, s: Server): Actuation {
    var c := SwitchCall(cfg.targets, input.faults, input.stamp, s);
    var posted := !cfg.webhook || WebhookResult(cfg, input) == N.Delivered;
    if cfg.k8s then Actuation(c.server, c.errs == [], c.errs == [] && !posted)
    else Actuation(s, posted, false)
  }

  function Latched(cfg: Settings, st: LoopState): LoopState {
    var st' := st.(machine := st.machine.(switched := true),
                   gauge := st.gauge[cfg.primaryRegion := false][cfg.secondaryRegion := true]);
    if cfg.targets.dryRun then st' else Follow(cfg, st'.(up := st'.up - {cfg.primaryRegion}))
  }

  ghost function MapLogOf(last: Baseline, cur: set<string>): MapLog {
    match last
    case NoBaseline => NewMap(Listing(cur))
    case Baseline(prev) => Delta(Listing(cur - prev), Listing(prev - cur))
  }

  /** What a tick records before it decides. */
  function Recorded(cfg: Settings, st: LoopState, input: TickInput): LoopState {
    var ps := RoundOf(st.target, input);
    var status := GlobalStatus(ps, cfg.critical);
    st.(up := st.up[st.region := status != Down], machine := Observed(st.machine, status, input.clock),
        lastStatus := LastStatus(status), lastHosts := Baseline(HostsOf(ps)))
  }

  /** What a tick does, and the state it does it to (before any latch). */
  function Decided(cfg: Settings, st: LoopState, input: TickInput): (Action, Server) {
    var status := GlobalStatus(RoundOf(st.target, input), cfg.critical);
    if !Due(cfg.failoverDelay, st.machine, status, input.clock) then (NoAction, st.server)
    else if cfg.targets.secondary == "" then (Skipped, st.server)
    else if !SecondaryReady(SecondaryStatus(cfg, input)) then (Held(SecondaryStatus(cfg, input)), st.server)
    else
      var a := Actuate(cfg, input, st.server);
      (Ran(a.latch), a.server)
  }

  function TickState(cfg: Settings, st: LoopState, input: TickInput): LoopState {
    var (action, server) := Decided(cfg, st, input);
    var st' := Recorded(cfg, st, input).(server := server);
    if action == Ran(true) then Latched(cfg, st') else st'
  }

  /** What a tick reports before it decides. */
  ghost function Logged(cfg: Settings, st: LoopState, input: TickInput): TickOut {
    var ps := RoundOf(st.target, input);
    var status := GlobalStatus(ps, cfg.critical);
    TickOut(st.target, status, MapLogOf(st.lastHosts, HostsOf(ps)),
      status == Down && st.lastStatus != LastStatus(status) && !st.machine.switched,
      Due(cfg.failoverDelay, st.machine, status, input.clock), NoAction)
  }

  ghost function OutOf(cfg: Settings, st: LoopState, input: TickInput): TickOut {
    Logged(cfg, st, input).(action := Decided(cfg, st, input).0)
  }

  /** The state after any number of ticks. */
  function Ticks(cfg: Settings, st: LoopState, inputs: seq<TickInput>): LoopState {
    if inputs == [] then st
    else TickState(cfg, Ticks(cfg, st, inputs[..|inputs| - 1]), inputs[|inputs| - 1])
  }

  /** The outputs of those ticks. */
  ghost function Outs(cfg: Settings, st: LoopState, inputs: seq<TickInput>): (outs: seq<TickOut>)
    ensures |outs| == |inputs|
  {
    if inputs == [] then []
    else
      var init := inputs[..|inputs| - 1];
      Outs(cfg, st, init) + [OutOf(cfg, Ticks(cfg, st, init), inputs[|inputs| - 1])]
  }

  lemma RunStep(cfg: Settings, st: LoopState, inputs: seq<TickInput>, i: nat)
    requires i < |inputs|
    ensures Ticks(cfg, st, inputs[..i + 1]) == TickState(cfg, Ticks(cfg, st, inputs[..i]), inputs[i])
    ensures Outs(cfg, st, inputs[..i + 1])
         == Outs(cfg, st, inputs[..i]) + [OutOf(cfg, Ticks(cfg, st, inputs[..i]), inputs[i])]
  {
    assert inputs[..i + 1][..i] == inputs[..i];
  }

  // ----- the loop itself -----

  class ActiveProber {
    var p: Target

    constructor (p: Target)
      ensures this.p == p
    {
      this.p := p;
    }

    method Set(p: Target)
      modifies this
      ensures this.p == p
    {
      this.p := p;
    }

    /** Probing through a nil prober would crash. */
    method Probe(input: TickInput) returns (ps: seq<Probe>)
      requires p != NoProber
      ensures ps == RoundOf(p, input)
    {
      ps := if p == SecondaryProber then input.secondary else input.primary;
    }
  }

  /** A nil path is disabled. */
  method RunSwitch(act: K8sActuator?, notifier: N.HTTP?, stamp: string) returns (latch: bool, dropped: bool)
    modifies if act != null then {act.client} else {}, if notifier != null then {notifier.endpoint} else {}
    ensures act != null ==>
      var c := SwitchCall(act.cfg, act.client.faults, stamp, old(act.client.state));
      act.client.state == c.server && act.client.faults == old(act.client.faults) && (latch <==> c.errs == [])
    ensures var posted := notifier == null || notifier.dryRun
                          || N.ResultOf(notifier.endpoint.network, notifier.retries) == N.Delivered;
      && (notifier != null && !notifier.dryRun ==>
            notifier.endpoint.received == old(notifier.endpoint.received)
                                          + N.OneTo(N.Last(notifier.endpoint.network, notifier.retries)))
      && (act == null ==> (latch <==> posted))
      && (dropped <==> act != null && latch && !posted)
  {
    latch, dropped := true, false;
    var k8sMoved := false;
    if act != null {
      var switched, errs := act.Switch(stamp);
      if errs != [] {
        latch := false;
      } else {
        k8sMoved := true;
      }
    }
    if notifier != null {
      var r := notifier.Notify();
      if r != N.Delivered {
        if act == null {
          latch := false;
        } else if k8sMoved {
          dropped := true;
        }
      }
    }
  }

  class Observer {
    const cfg: Settings
    const api: ApiServer
    const act: K8sActuator?
    const prober: ActiveProber
    const machine: Machine
    var activeRole: Role
    var activeDisp: string
    var activeRegion: string
    var lastStatus: LastStatus
    var lastHosts: Baseline
    var couchbaseUp: map<string, bool>
    var regionGauge: map<string, bool>

    function Abs(): LoopState
      reads this, prober, machine, api
    {
      LoopState(activeRole, activeDisp, activeRegion, prober.p, lastStatus, lastHosts, machine.Abs(),
                couchbaseUp, regionGauge, api.state)
    }

    ghost predicate Valid()
      reads this, prober
    {
      && prober.p != NoProber
      && machine.failoverDelay == cfg.failoverDelay
      && (cfg.k8s <==> act != null)
      && (act != null ==> act.client == api && act.cfg == cfg.targets)
    }

    /** Startup up to the first tick; `api.faults` are those of the startup reads. */
    constructor (cfg: Settings, api: ApiServer)
      ensures Valid() && this.cfg == cfg && this.api == api && fresh(prober) && fresh(machine)
      ensures Abs() == Boot(cfg, api.faults, api.state)
    {
      this.cfg, this.api := cfg, api;
      var already := false;
      var actuator: K8sActuator? := null;
      if cfg.k8s {
        actuator := new K8sActuator(api, cfg.targets);
        var stale;
        already, stale := ReconcileAlreadySwitched(api, cfg.targets);
      }
      act := actuator;
      machine := new Machine(cfg.failoverDelay, already);
      prober := new ActiveProber(PrimaryProber);
      regionGauge := if already then map[cfg.secondaryRegion := true] else map[cfg.primaryRegion := true];
      couchbaseUp := map[];
      activeRole, activeDisp, activeRegion := Primary, cfg.primaryDisp, cfg.primaryRegion;
      lastStatus, lastHosts := NoStatus, NoBaseline;
      new;
      if already {
        if HasSecondaryProber(cfg) {
          FollowSecondary();
        }
      }
    }

    method FollowSecondary()
      modifies this, prober
      ensures Abs() == Follow(cfg, old(Abs()))
    {
      activeRole, activeDisp, activeRegion := Secondary, cfg.secondaryDisp, cfg.secondaryRegion;
      prober.Set(if HasSecondaryProber(cfg) then SecondaryProber else NoProber);
      lastHosts := NoBaseline;
    }

    /** One health computation, of which the loop keeps the verdict. */
    method Check(ps: seq<Probe>, stamp: string) returns (status: Status)
      ensures status == GlobalStatus(ps, cfg.critical)
    {
      var rep := Compute(ps, cfg.critical, stamp);
      status := rep.status;
    }

    method LogMap(cur: set<string>) returns (log: MapLog)
      ensures log == MapLogOf(lastHosts, cur)
    {
      if lastHosts.NoBaseline? {
        var hosts := SortedKeys(cur);
        return NewMap(hosts);
      }
      var added, removed := DiffHosts(lastHosts.hosts, cur);
      return Delta(added, removed);
    }

    /** What a tick keeps of a round with this verdict and these hosts, and whether that makes
        the countdown line and a switch due. */
    method Keep(status: Status, hosts: set<string>, clock: int) returns (countdown: bool, due: bool)
      requires Valid()
      modifies this, machine
      ensures Valid()
      ensures Abs() == old(Abs()).(
        up := old(Abs()).up[old(activeRegion) := status != Down],
        machine := Observed(old(Abs()).machine, status, clock),
        lastStatus := LastStatus(status), lastHosts := Baseline(hosts))
      ensures countdown <==> status == Down && old(lastStatus) != LastStatus(status) && !old(machine.switched)
      ensures due <==> Due(cfg.failoverDelay, old(machine.Abs()), status, clock)
    {
      couchbaseUp := couchbaseUp[activeRegion := status != Down];
      var res := machine.Observe(status, clock);
      due := res.switchRequired;
      lastHosts := Baseline(hosts);
      var changed := LastStatus(status) != lastStatus;
      countdown := status == Down && changed && !machine.switched;
      lastStatus := LastStatus(status);
    }

    /** The first part of a tick: probe, record, and log the cluster map. */
    method Record(input: TickInput) returns (out: TickOut)
      requires Valid()
      modifies this, machine
      ensures Valid() && Abs() == Recorded(cfg, old(Abs()), input)
      ensures out == Logged(cfg, old(Abs()), input)
    {
      var probeSet := prober.Probe(input);
      var status := Check(probeSet, input.stamp);
      var hosts := HostSet(probeSet);
      var mapLog := LogMap(hosts);
      var countdown, due := Keep(status, hosts, input.clock);
      out := TickOut(prober.p, status, mapLog, countdown, due, NoAction);
    }

    method Tick(input: TickInput) returns (out: TickOut)
      requires Valid()
      modifies this, prober, machine, api
      ensures Valid() && Abs() == TickState(cfg, old(Abs()), input) && out == OutOf(cfg, old(Abs()), input)
    {
      out := Record(input);
      if !out.required {
        return;
      }
      if cfg.targets.secondary == "" {
        out := out.(action := Skipped);
        return;
      }
      var secStatus := Down;
      if HasSecondaryProber(cfg) {
        secStatus := Check(input.secondary, input.stamp);
      }
      if !SecondaryReady(secStatus) {
        out := out.(action := Held(secStatus));
        return;
      }
      var latch := Switch(input);
      out := out.(action := Ran(latch));
      if latch {
        Latch();
      }
    }

    /** The call to runSwitch, with the API and the endpoint as they behave in this tick. */
    method Switch(input: TickInput) returns (latch: bool)
      requires Valid()
      modifies api
      ensures Valid() && Abs() == old(Abs()).(server := Actuate(cfg, input, old(Abs()).server).server)
      ensures latch == Actuate(cfg, input, old(Abs()).server).latch
    {
      api.faults := input.faults;
      var notifier: N.HTTP? := null;
      if cfg.webhook {
        var endpoint := new N.Endpoint(input.network);
        notifier := new N.HTTP(endpoint, cfg.retries, cfg.targets.dryRun);
      }
      var dropped;
      latch, dropped := RunSwitch(act, notifier, input.stamp);
    }

    method Latch()
      requires Valid() && HasSecondaryProber(cfg)
      modifies this, prober, machine
      ensures Valid() && Abs() == Latched(cfg, old(Abs()))
    {
      machine.MarkSwitched();
      regionGauge := regionGauge[cfg.primaryRegion := false];
      regionGauge := regionGauge[cfg.secondaryRegion := true];
      if !cfg.targets.dryRun {
        couchbaseUp := couchbaseUp - {cfg.primaryRegion};
        FollowSecondary();
      }
    }

    /** The ticker loop. */
    method Poll(inputs: seq<TickInput>) returns (outs: seq<TickOut>)
      requires Valid()
      modifies this, prober, machine, api
      ensures Valid() && Abs() == Ticks(cfg, old(Abs()), inputs)
      ensures outs == Outs(cfg, old(Abs()), inputs)
    {
      outs := [];
      ghost var st := Abs();
      for i := 0 to |inputs|
        invariant Valid() && Abs() == Ticks(cfg, st, inputs[..i]) && outs == Outs(cfg, st, inputs[..i])
      {
        RunStep(cfg, st, inputs, i);
        var out := Tick(inputs[i]);
        outs := outs + [out];
      }
      assert inputs[..|inputs|] == inputs;
    }
  }
}

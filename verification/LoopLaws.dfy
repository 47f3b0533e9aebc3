/** Whole runs of the loop: when it acts, what a latch means, what it watches. A run is a
    boot followed by any sequence of ticks. */
module LoopLaws {
  import opened Ordering
  import opened Kube
  import opened Actuator
  import opened Convergence
  import opened StateMachine
  import opened Health
  import opened Nodes
  import opened Loop
  import N = Notify

  predicate Adopted(cfg: Settings, f: Faults, s: Server) {
    cfg.k8s && Reconcile(cfg.targets, f, s).already
  }

  /** The state after a boot and `inputs`. */
  function Running(cfg: Settings, f: Faults, s: Server, inputs: seq<TickInput>): LoopState {
    Ticks(cfg, Boot(cfg, f, s), inputs)
  }

  /** The round of the cluster the process names as active. */
  function ActiveRound(st: LoopState, input: TickInput): seq<Probe> {
    if st.role == Role.Secondary then input.secondary else input.primary
  }

  /** The verdicts the loop has observed, with the clock readings. */
  function Verdicts(cfg: Settings, st: LoopState, inputs: seq<TickInput>): (h: seq<Obs>)
    ensures |h| == |inputs|
  {
    if inputs == [] then []
    else
      var init, input := inputs[..|inputs| - 1], inputs[|inputs| - 1];
      Verdicts(cfg, st, init) + [ObsOf(cfg, Ticks(cfg, st, init), input)]
  }

  function ObsOf(cfg: Settings, st: LoopState, input: TickInput): Obs {
    Obs(GlobalStatus(RoundOf(st.target, input), cfg.critical), input.clock)
  }

  // ----- what every run keeps -----

  /** Every name and every reader of a cluster agrees, and it is the secondary exactly when
      the process adopted a finished switch and can probe it, or latched one for real. */
  predicate Coherent(cfg: Settings, adopted: bool, st: LoopState) {
    var away := (adopted && HasSecondaryProber(cfg)) || (!adopted && st.machine.switched && !cfg.targets.dryRun);
    && st.role == (if away then Secondary else Primary)
    && st.disp == (if away then cfg.secondaryDisp else cfg.primaryDisp)
    && st.region == (if away then cfg.secondaryRegion else cfg.primaryRegion)
    && st.target == (if away then SecondaryProber else PrimaryProber)
    && st.up.Keys <= {st.region}
    && (adopted ==> st.machine.switched)
    && (st.machine.switched && !adopted ==> HasSecondaryProber(cfg))
  }

  /** The active_region series names the secondary exactly when the machine has latched. */
  predicate GaugeFollowsLatch(cfg: Settings, st: LoopState) {
    var (on, off) := if st.machine.switched then (cfg.secondaryRegion, cfg.primaryRegion)
                     else (cfg.primaryRegion, cfg.secondaryRegion);
    && on in st.gauge && st.gauge[on]
    && (on != off && off in st.gauge ==> !st.gauge[off])
  }

  ghost predicate LoopInv(cfg: Settings, adopted: bool, st: LoopState, h: seq<Obs>) {
    && Coherent(cfg, adopted, st)
    && GaugeFollowsLatch(cfg, st)
    && Tracks(st.machine, h)
    && (st.machine.inDown <==> st.lastStatus == LastStatus(Down))
    && (cfg.k8s && !cfg.targets.dryRun && st.machine.switched && !adopted ==> Converged(cfg.targets, st.server))
  }

  lemma DecidedMeans(cfg: Settings, st: LoopState, input: TickInput)
    ensures var (action, server) := Decided(cfg, st, input);
      && (!action.Ran? ==> server == st.server)
      && (action.Ran? ==> !st.machine.switched && cfg.targets.secondary != "" && HasSecondaryProber(cfg)
                          && GlobalStatus(input.secondary, cfg.critical) != Down
                          && server == Actuate(cfg, input, st.server).server)
      && (action == Ran(true) && cfg.k8s && !cfg.targets.dryRun ==> Converged(cfg.targets, server))
  {
    if cfg.k8s && !cfg.targets.dryRun && SwitchCall(cfg.targets, input.faults, input.stamp, st.server).errs == [] {
      NilErrorConverges(cfg.targets, input.faults, input.stamp, st.server);
    }
  }

  lemma TickKeepsInv(cfg: Settings, adopted: bool, st: LoopState, h: seq<Obs>, input: TickInput)
    requires LoopInv(cfg, adopted, st, h)
    ensures LoopInv(cfg, adopted, TickState(cfg, st, input), h + [ObsOf(cfg, st, input)])
  {
    DecidedMeans(cfg, st, input);
    ObserveTracks(st.machine, h, ObsOf(cfg, st, input));
  }

  lemma {:induction false} RunKeepsInv(cfg: Settings, f: Faults, s: Server, inputs: seq<TickInput>)
    ensures LoopInv(cfg, Adopted(cfg, f, s), Running(cfg, f, s, inputs), Verdicts(cfg, Boot(cfg, f, s), inputs))
  {
    if inputs != [] {
      var init := inputs[..|inputs| - 1];
      RunKeepsInv(cfg, f, s, init);
      TickKeepsInv(cfg, Adopted(cfg, f, s), Running(cfg, f, s, init), Verdicts(cfg, Boot(cfg, f, s), init),
                   inputs[|inputs| - 1]);
    }
  }

  /** In every reachable state all names of the active cluster agree, no nil prober is
      installed, and no stale couchbase_up series survives. */
  lemma ActiveTargetCoherent(cfg: Settings, f: Faults, s: Server, inputs: seq<TickInput>)
    ensures var st := Running(cfg, f, s, inputs);
      && Coherent(cfg, Adopted(cfg, f, s), st) && GaugeFollowsLatch(cfg, st) && st.target != NoProber
  {
    RunKeepsInv(cfg, f, s, inputs);
  }

  predicate GaugeNames(st: LoopState, region: string) {
    region in st.gauge && st.gauge[region]
  }

  /** The active_region series names the cluster that is watched, except, when the two
      labels differ, after a dry-run latch and after adopting a switch whose secondary
      cannot be probed. */
  lemma GaugeNamesWatchedIff(cfg: Settings, f: Faults, s: Server, inputs: seq<TickInput>)
    ensures var st, adopted := Running(cfg, f, s, inputs), Adopted(cfg, f, s);
      GaugeNames(st, st.region)
      <==> cfg.primaryRegion == cfg.secondaryRegion
           || !(st.machine.switched && if adopted then !HasSecondaryProber(cfg) else cfg.targets.dryRun)
  {
    RunKeepsInv(cfg, f, s, inputs);
  }

  lemma {:induction false} TicksAppend(cfg: Settings, st: LoopState, a: seq<TickInput>, b: seq<TickInput>)
    ensures Ticks(cfg, st, a + b) == Ticks(cfg, Ticks(cfg, st, a), b)
    decreases |b|
  {
    if b == [] {
      assert a + b == a;
    } else {
      assert (a + b)[..|a + b| - 1] == a + b[..|b| - 1];
      TicksAppend(cfg, st, a, b[..|b| - 1]);
    }
  }

  lemma TickAfterLatch(cfg: Settings, st: LoopState, input: TickInput)
    requires st.machine.switched
    ensures Decided(cfg, st, input).0 == NoAction
    ensures var t := TickState(cfg, st, input);
      t.machine.switched && t.server == st.server && t.target == st.target
  {
  }

  /** A latch is for good: from then on the cluster, the latch and the target stay. */
  lemma {:induction false} LatchIsFinal(cfg: Settings, st: LoopState, more: seq<TickInput>)
    requires st.machine.switched
    ensures var t := Ticks(cfg, st, more);
      t.machine.switched && t.server == st.server && t.target == st.target
  {
    if more != [] {
      LatchIsFinal(cfg, st, more[..|more| - 1]);
      TickAfterLatch(cfg, Ticks(cfg, st, more[..|more| - 1]), more[|more| - 1]);
    }
  }

  /** The probe targets seen over a run are the primary for a while, then the secondary. */
  lemma TargetNeverReturns(cfg: Settings, f: Faults, s: Server, a: seq<TickInput>, b: seq<TickInput>)
    requires Running(cfg, f, s, a).target == SecondaryProber
    ensures Running(cfg, f, s, a + b).target == SecondaryProber
  {
    RunKeepsInv(cfg, f, s, a);
    TicksAppend(cfg, Boot(cfg, f, s), a, b);
    LatchIsFinal(cfg, Running(cfg, f, s, a), b);
  }

  // ----- when it acts -----

  /** runSwitch is called only with a secondary configured, in a process that has neither
      adopted nor latched a switch, at the end of an unbroken DOWN window of at least the
      delay, with the secondary probed non-DOWN in the same tick. */
  lemma ActsOnlyWhenDue(cfg: Settings, f: Faults, s: Server, inputs: seq<TickInput>, input: TickInput)
    requires OutOf(cfg, Running(cfg, f, s, inputs), input).action.Ran?
    ensures cfg.targets.secondary != "" && HasSecondaryProber(cfg) && !Adopted(cfg, f, s)
    ensures !Running(cfg, f, s, inputs).machine.switched
    ensures GlobalStatus(input.secondary, cfg.critical) != Down
    ensures var h := Verdicts(cfg, Boot(cfg, f, s), inputs + [input]);
      exists a :: Window(h, a) && input.clock - h[a].at >= cfg.failoverDelay
  {
    var st, h := Running(cfg, f, s, inputs), Verdicts(cfg, Boot(cfg, f, s), inputs);
    RunKeepsInv(cfg, f, s, inputs);
    DecidedMeans(cfg, st, input);
    VerdictsStep(cfg, Boot(cfg, f, s), inputs, input);
    DueHasWindow(cfg.failoverDelay, st.machine, h, ObsOf(cfg, st, input));
  }

  lemma VerdictsStep(cfg: Settings, st: LoopState, inputs: seq<TickInput>, input: TickInput)
    ensures Verdicts(cfg, st, inputs + [input])
         == Verdicts(cfg, st, inputs) + [ObsOf(cfg, Ticks(cfg, st, inputs), input)]
  {
    assert (inputs + [input])[..|inputs|] == inputs;
  }

  /** After a latch runSwitch is never called again, nor ever in an adopted process. */
  lemma NeverActsAgain(cfg: Settings, f: Faults, s: Server, a: seq<TickInput>, b: seq<TickInput>, input: TickInput)
    requires Running(cfg, f, s, a).machine.switched || Adopted(cfg, f, s)
    ensures OutOf(cfg, Running(cfg, f, s, a + b), input).action == NoAction
    ensures Running(cfg, f, s, a + b).server == Running(cfg, f, s, a).server
  {
    RunKeepsInv(cfg, f, s, a);
    TicksAppend(cfg, Boot(cfg, f, s), a, b);
    LatchIsFinal(cfg, Running(cfg, f, s, a), b);
    TickAfterLatch(cfg, Running(cfg, f, s, a + b), input);
  }

  /** With the Kubernetes actuator and no dry run, a process that latched a switch left every
      target on the secondary, at that tick and ever after. */
  lemma LatchMeansConverged(cfg: Settings, f: Faults, s: Server, inputs: seq<TickInput>)
    requires cfg.k8s && !cfg.targets.dryRun && !Adopted(cfg, f, s)
    requires Running(cfg, f, s, inputs).machine.switched
    ensures Converged(cfg.targets, Running(cfg, f, s, inputs).server)
  {
    RunKeepsInv(cfg, f, s, inputs);
  }

  /** The countdown line appears exactly when a DOWN window opens in an unlatched process. */
  lemma CountdownOpensWindow(cfg: Settings, f: Faults, s: Server, inputs: seq<TickInput>, input: TickInput)
    ensures var st, h := Running(cfg, f, s, inputs), Verdicts(cfg, Boot(cfg, f, s), inputs + [input]);
      OutOf(cfg, st, input).countdown <==> !st.machine.switched && Window(h, |inputs|)
  {
    var st, h := Running(cfg, f, s, inputs), Verdicts(cfg, Boot(cfg, f, s), inputs);
    RunKeepsInv(cfg, f, s, inputs);
    assert (inputs + [input])[..|inputs|] == inputs;
    var o := ObsOf(cfg, st, input);
    assert Verdicts(cfg, Boot(cfg, f, s), inputs + [input]) == h + [o];
    if o.status == Down {
      WindowGrows(h, o, |inputs|);
    }
    assert (h + [o])[|h|] == o;
  }

  // ----- the webhook -----

  predicate SameButWebhook(a: TickInput, b: TickInput) {
    && a.clock == b.clock && a.primary == b.primary && a.secondary == b.secondary
    && a.faults == b.faults && a.stamp == b.stamp
  }

  /** With Kubernetes enabled no webhook outcome can influence anything the loop does. */
  lemma {:induction false} WebhookCannotMatter(cfg: Settings, st: LoopState, a: seq<TickInput>, b: seq<TickInput>)
    requires cfg.k8s && |a| == |b| && forall i :: 0 <= i < |a| ==> SameButWebhook(a[i], b[i])
    ensures Ticks(cfg, st, a) == Ticks(cfg, st, b)
  {
    if a != [] {
      var n := |a| - 1;
      WebhookCannotMatter(cfg, st, a[..n], b[..n]);
      assert SameButWebhook(a[n], b[n]);
      SameTick(cfg, Ticks(cfg, st, a[..n]), a[n], b[n]);
    }
  }

  lemma SameTick(cfg: Settings, st: LoopState, x: TickInput, y: TickInput)
    requires cfg.k8s && SameButWebhook(x, y)
    ensures TickState(cfg, st, x) == TickState(cfg, st, y)
  {
    assert RoundOf(st.target, x) == RoundOf(st.target, y);
    assert Decided(cfg, st, x) == Decided(cfg, st, y);
    assert Recorded(cfg, st, x) == Recorded(cfg, st, y);
  }

  lemma WebhookTick(cfg: Settings, st: LoopState, input: TickInput)
    requires !cfg.k8s && cfg.webhook && !cfg.targets.dryRun
    ensures TickState(cfg, st, input).server == st.server
    ensures !st.machine.switched && TickState(cfg, st, input).machine.switched ==>
      N.ResultOf(input.network, cfg.retries) == N.Delivered
  {
  }

  /** Without Kubernetes the cluster is not touched, and a latch means a delivery. */
  lemma {:induction false} WebhookOnlyLatch(cfg: Settings, st: LoopState, inputs: seq<TickInput>)
    requires !cfg.k8s && cfg.webhook && !cfg.targets.dryRun && !st.machine.switched
    ensures Ticks(cfg, st, inputs).server == st.server
    ensures Ticks(cfg, st, inputs).machine.switched ==>
      exists i :: 0 <= i < |inputs| && N.ResultOf(inputs[i].network, cfg.retries) == N.Delivered
  {
    if inputs != [] {
      var n := |inputs| - 1;
      WebhookOnlyLatch(cfg, st, inputs[..n]);
      WebhookTick(cfg, Ticks(cfg, st, inputs[..n]), inputs[n]);
      assert forall i :: 0 <= i < n ==> inputs[..n][i] == inputs[i];
    }
  }

  // ----- timing -----

  /** The secondary is ready at a tick and the enabled path moves what it has to. */
  predicate WouldLatch(cfg: Settings, st: LoopState, input: TickInput) {
    && cfg.targets.secondary != "" && SecondaryReady(SecondaryStatus(cfg, input))
    && Actuate(cfg, input, st.server).latch
  }

  /** A DOWN window opens at tick `a` and lasts to the end of the run. */
  predicate DownSince(cfg: Settings, st: LoopState, inputs: seq<TickInput>, a: nat) {
    var h := Verdicts(cfg, st, inputs);
    && a < |inputs| && (if a == 0 then !st.machine.inDown else h[a - 1].status != Down)
    && (forall k :: a <= k < |inputs| ==> h[k].status == Down)
  }

  /** A window opens at `a`, and as long as nothing has latched every later tick is DOWN. */
  predicate DownUntilLatch(cfg: Settings, st: LoopState, inputs: seq<TickInput>, a: nat) {
    && a < |inputs| && (if a == 0 then !st.machine.inDown else Verdicts(cfg, st, inputs)[a - 1].status != Down)
    && (forall k :: a <= k < |inputs| && !Ticks(cfg, st, inputs[..k]).machine.switched ==>
          Verdicts(cfg, st, inputs)[k].status == Down)
  }

  /** Such an outage in which every tick from the due time on could latch. */
  predicate OutageFrom(cfg: Settings, st: LoopState, inputs: seq<TickInput>, a: nat) {
    && DownUntilLatch(cfg, st, inputs, a)
    && (forall k :: a <= k < |inputs| && !Ticks(cfg, st, inputs[..k]).machine.switched ==>
          inputs[k].clock >= inputs[a].clock + cfg.failoverDelay ==>
            WouldLatch(cfg, Ticks(cfg, st, inputs[..k]), inputs[k]))
  }

  predicate LatchedAt(cfg: Settings, st: LoopState, inputs: seq<TickInput>, b: nat)
    requires b < |inputs|
  {
    Ticks(cfg, st, inputs[..b + 1]).machine.switched
  }

  /** The machine counts from the tick that opened the window. */
  lemma {:induction false} CountsFromOpening(cfg: Settings, st: LoopState, inputs: seq<TickInput>, a: nat)
    requires DownSince(cfg, st, inputs, a)
    ensures var m := Ticks(cfg, st, inputs).machine; m.inDown && m.firstDownAt == inputs[a].clock
  {
    var n := |inputs| - 1;
    var init := inputs[..n];
    LastIsDown(cfg, st, inputs, a);
    if a < n {
      CountsFromOpening(cfg, st, init, a);
    } else if a > 0 {
      NotDownNotCounting(cfg, st, init);
    }
    DownTick(cfg, Ticks(cfg, st, init), inputs[n]);
  }

  lemma DownTick(cfg: Settings, st: LoopState, input: TickInput)
    requires ObsOf(cfg, st, input).status == Down
    ensures var m := TickState(cfg, st, input).machine;
      m.inDown && m.firstDownAt == if st.machine.inDown then st.machine.firstDownAt else input.clock
  {
  }

  lemma LastIsDown(cfg: Settings, st: LoopState, inputs: seq<TickInput>, a: nat)
    requires DownSince(cfg, st, inputs, a)
    ensures var n := |inputs| - 1;
      && ObsOf(cfg, Ticks(cfg, st, inputs[..n]), inputs[n]).status == Down
      && (a < n ==> DownSince(cfg, st, inputs[..n], a))
      && (0 < a == n ==> Verdicts(cfg, st, inputs[..n])[n - 1].status != Down)
  {
    var n := |inputs| - 1;
    var h, g := Verdicts(cfg, st, inputs), Verdicts(cfg, st, inputs[..n]);
    assert h == g + [ObsOf(cfg, Ticks(cfg, st, inputs[..n]), inputs[n])];
    assert forall k :: 0 <= k < n ==> h[k] == g[k];
    assert h[n].status == Down;
  }

  lemma NotDownNotCounting(cfg: Settings, st: LoopState, inputs: seq<TickInput>)
    requires inputs != [] && Verdicts(cfg, st, inputs)[|inputs| - 1].status != Down
    ensures !Ticks(cfg, st, inputs).machine.inDown
  {
  }

  /** Never early: a tick that latches comes at least the delay after its window opened.
      `st` is any state in which no window is open, such as the one after a boot. */
  lemma NeverEarly(cfg: Settings, st: LoopState, inputs: seq<TickInput>, a: nat)
    requires DownSince(cfg, st, inputs, a)
    requires !Ticks(cfg, st, inputs[..|inputs| - 1]).machine.switched && Ticks(cfg, st, inputs).machine.switched
    ensures inputs[|inputs| - 1].clock >= inputs[a].clock + cfg.failoverDelay
  {
    CountsFromOpening(cfg, st, inputs, a);
  }

  /** Any DOWN tick at or past the due time asks for the switch again as long as nothing has
      latched: a held or failed attempt is retried at the very next DOWN tick. */
  lemma RetriedEveryDueTick(cfg: Settings, st: LoopState, inputs: seq<TickInput>, a: nat)
    requires DownSince(cfg, st, inputs, a)
    requires inputs[|inputs| - 1].clock >= inputs[a].clock + cfg.failoverDelay
    requires !Ticks(cfg, st, inputs[..|inputs| - 1]).machine.switched
    ensures var before, input := Ticks(cfg, st, inputs[..|inputs| - 1]), inputs[|inputs| - 1];
      && OutOf(cfg, before, input).required
      && (WouldLatch(cfg, before, input) ==> Ticks(cfg, st, inputs).machine.switched)
  {
    CountsFromOpening(cfg, st, inputs, a);
    var n := |inputs| - 1;
    assert Verdicts(cfg, st, inputs)[n] == ObsOf(cfg, Ticks(cfg, st, inputs[..n]), inputs[n]);
  }

  /** Never late: when ticks are at most `g` apart and every tick from the due time on could
      latch, the latch comes less than `g` after the due time. */
  lemma NeverLate(cfg: Settings, st: LoopState, inputs: seq<TickInput>, a: nat, g: int)
    requires OutageFrom(cfg, st, inputs, a)
    requires forall k :: a < k < |inputs| ==> inputs[k].clock <= inputs[k - 1].clock + g
    requires cfg.failoverDelay + g > 0 && inputs[|inputs| - 1].clock >= inputs[a].clock + cfg.failoverDelay
    ensures exists b: nat ::
      && a <= b < |inputs| && LatchedAt(cfg, st, inputs, b)
      && inputs[b].clock < inputs[a].clock + cfg.failoverDelay + g
  {
    var b := FirstDue(inputs, a, inputs[a].clock + cfg.failoverDelay);
    LatchedBy(cfg, st, inputs, a, b);
    assert b > a ==> inputs[b].clock <= inputs[b - 1].clock + g;
  }

  lemma LatchedBy(cfg: Settings, st: LoopState, inputs: seq<TickInput>, a: nat, b: nat)
    requires OutageFrom(cfg, st, inputs, a) && a <= b < |inputs|
    requires inputs[b].clock >= inputs[a].clock + cfg.failoverDelay
    ensures LatchedAt(cfg, st, inputs, b)
  {
    var upTo := inputs[..b + 1];
    assert upTo[..|upTo| - 1] == inputs[..b] && upTo[b] == inputs[b] && upTo[a] == inputs[a];
    if Ticks(cfg, st, inputs[..b]).machine.switched {
      assert Ticks(cfg, st, upTo) == TickState(cfg, Ticks(cfg, st, inputs[..b]), inputs[b]);
    } else {
      DownToDue(cfg, st, inputs, a, b);
      RetriedEveryDueTick(cfg, st, upTo, a);
    }
  }

  lemma DownToDue(cfg: Settings, st: LoopState, inputs: seq<TickInput>, a: nat, b: nat)
    requires DownUntilLatch(cfg, st, inputs, a) && a <= b < |inputs|
    requires !Ticks(cfg, st, inputs[..b]).machine.switched
    ensures DownSince(cfg, st, inputs[..b + 1], a)
  {
    var h, g := Verdicts(cfg, st, inputs), Verdicts(cfg, st, inputs[..b + 1]);
    VerdictsPrefix(cfg, st, inputs, b + 1);
    forall k | a <= k <= b ensures g[k].status == Down {
      UnlatchedBefore(cfg, st, inputs, k, b);
      assert g[k] == h[k];
    }
    assert a > 0 ==> g[a - 1] == h[a - 1];
  }

  lemma PrefixAt(cfg: Settings, st: LoopState, inputs: seq<TickInput>, k: nat, b: nat)
    requires k < b <= |inputs|
    ensures Verdicts(cfg, st, inputs[..b])[k] == Verdicts(cfg, st, inputs)[k]
    ensures inputs[..b][..k] == inputs[..k] && inputs[..b][k] == inputs[k]
  {
    VerdictsPrefix(cfg, st, inputs, b);
  }

  lemma DownUntilLatchPrefix(cfg: Settings, st: LoopState, inputs: seq<TickInput>, a: nat, b: nat)
    requires DownUntilLatch(cfg, st, inputs, a) && a < b <= |inputs|
    ensures DownUntilLatch(cfg, st, inputs[..b], a)
  {
    forall k | a <= k < b && !Ticks(cfg, st, inputs[..b][..k]).machine.switched
      ensures Verdicts(cfg, st, inputs[..b])[k].status == Down
    {
      PrefixAt(cfg, st, inputs, k, b);
    }
    if a > 0 {
      PrefixAt(cfg, st, inputs, a - 1, b);
    }
  }

  lemma UnlatchedBefore(cfg: Settings, st: LoopState, inputs: seq<TickInput>, k: nat, b: nat)
    requires k <= b <= |inputs| && !Ticks(cfg, st, inputs[..b]).machine.switched
    ensures !Ticks(cfg, st, inputs[..k]).machine.switched
  {
    assert inputs[..b] == inputs[..k] + inputs[k..b];
    TicksAppend(cfg, st, inputs[..k], inputs[k..b]);
    if Ticks(cfg, st, inputs[..k]).machine.switched {
      LatchIsFinal(cfg, Ticks(cfg, st, inputs[..k]), inputs[k..b]);
    }
  }

  function FirstDue(inputs: seq<TickInput>, a: nat, due: int): (b: nat)
    requires a < |inputs| && inputs[|inputs| - 1].clock >= due
    ensures a <= b < |inputs| && inputs[b].clock >= due
    ensures forall k :: a <= k < b ==> inputs[k].clock < due
    decreases |inputs| - a
  {
    if inputs[a].clock >= due then a else FirstDue(inputs, a + 1, due)
  }

  lemma {:induction false} VerdictsPrefix(cfg: Settings, st: LoopState, inputs: seq<TickInput>, n: nat)
    requires n <= |inputs|
    ensures Verdicts(cfg, st, inputs[..n]) == Verdicts(cfg, st, inputs)[..n]
  {
    if n < |inputs| {
      var init := inputs[..|inputs| - 1];
      assert init[..n] == inputs[..n];
      VerdictsPrefix(cfg, st, init, n);
    } else {
      assert inputs[..n] == inputs;
    }
  }

  // ----- the cluster-map log -----

  function Replay(hosts: set<string>, log: MapLog): set<string> {
    match log
    case NewMap(all) => Elements(all)
    case Delta(added, removed) => (hosts + Elements(added)) - Elements(removed)
  }

  /** What a reader of the cluster-map lines believes the hosts to be. */
  ghost function Replayed(cfg: Settings, st: LoopState, inputs: seq<TickInput>): set<string> {
    if inputs == [] then {}
    else
      var init, input := inputs[..|inputs| - 1], inputs[|inputs| - 1];
      Replay(Replayed(cfg, st, init), OutOf(cfg, Ticks(cfg, st, init), input).mapLog)
  }

  /** On any run, across a switch too, replaying the lines gives the hosts of the last round,
      and a baseline kept for the next tick is the last round of the cluster then watched. */
  lemma {:induction false} MapLogReplays(cfg: Settings, f: Faults, s: Server, inputs: seq<TickInput>)
    requires inputs != []
    ensures var n, st0 := |inputs| - 1, Boot(cfg, f, s);
      var seen := RoundOf(Ticks(cfg, st0, inputs[..n]).target, inputs[n]);
      && Replayed(cfg, st0, inputs) == HostsOf(seen)
      && (Ticks(cfg, st0, inputs).lastHosts != NoBaseline ==>
            && Ticks(cfg, st0, inputs).lastHosts == Baseline(HostsOf(seen))
            && Ticks(cfg, st0, inputs).target == Ticks(cfg, st0, inputs[..n]).target)
  {
    var n, st0 := |inputs| - 1, Boot(cfg, f, s);
    var init := inputs[..n];
    if init != [] {
      MapLogReplays(cfg, f, s, init);
    }
    ReplayStep(cfg, Ticks(cfg, st0, init), inputs[n], Replayed(cfg, st0, init));
  }

  predicate Lists(s: seq<string>, elements: set<string>) {
    Elements(s) == elements && Sorted(s) && Distinct(s)
  }

  predicate LogsChange(last: Baseline, cur: set<string>, log: MapLog) {
    match log
    case NewMap(all) => last.NoBaseline? && Lists(all, cur)
    case Delta(added, removed) =>
      last.Baseline? && Lists(added, cur - last.hosts) && Lists(removed, last.hosts - cur)
  }

  /** A tick without a baseline logs the whole map of the active cluster; any other logs what
      came and what went since the baseline. The lists are strictly sorted. */
  lemma MapLogMeans(cfg: Settings, f: Faults, s: Server, inputs: seq<TickInput>, input: TickInput)
    ensures var st := Running(cfg, f, s, inputs);
      LogsChange(st.lastHosts, HostsOf(ActiveRound(st, input)), OutOf(cfg, st, input).mapLog)
  {
    RunKeepsInv(cfg, f, s, inputs);
    var st := Running(cfg, f, s, inputs);
    var cur := HostsOf(ActiveRound(st, input));
    ListingElements(cur);
    if st.lastHosts.Baseline? {
      ListingElements(cur - st.lastHosts.hosts);
      ListingElements(st.lastHosts.hosts - cur);
    }
  }

  lemma ReplayStep(cfg: Settings, st: LoopState, input: TickInput, known: set<string>)
    requires st.lastHosts.Baseline? ==> st.lastHosts.hosts == known
    ensures var cur := HostsOf(RoundOf(st.target, input));
      && Replay(known, OutOf(cfg, st, input).mapLog) == cur
      && (TickState(cfg, st, input).lastHosts != NoBaseline ==>
            TickState(cfg, st, input).lastHosts == Baseline(cur) && TickState(cfg, st, input).target == st.target)
  {
    ReplayLine(st.lastHosts, HostsOf(RoundOf(st.target, input)), known);
  }

  lemma ReplayLine(last: Baseline, cur: set<string>, known: set<string>)
    requires last.Baseline? ==> last.hosts == known
    ensures Replay(known, MapLogOf(last, cur)) == cur
  {
    assert Elements(Listing(cur)) == cur;
    DiffReplays(known, cur);
  }

  // ----- one tick of any run, read off the inputs -----

  /** What a tick says of health comes from the cluster the process names as active. */
  lemma WatchesActive(cfg: Settings, f: Faults, s: Server, inputs: seq<TickInput>, input: TickInput)
    ensures var st := Running(cfg, f, s, inputs);
      var out := OutOf(cfg, st, input);
      && out.status == GlobalStatus(ActiveRound(st, input), cfg.critical)
      && out.probed == (if st.role == Role.Secondary then SecondaryProber else PrimaryProber)
  {
    RunKeepsInv(cfg, f, s, inputs);
  }

  lemma RecordsActive(cfg: Settings, adopted: bool, st: LoopState, input: TickInput)
    requires Coherent(cfg, adopted, st)
    ensures var r := Recorded(cfg, st, input);
      && r.up == map[st.region := GlobalStatus(ActiveRound(st, input), cfg.critical) != Down]
      && r.lastHosts == Baseline(HostsOf(ActiveRound(st, input))) && r.role == st.role && r.region == st.region
      && r.lastStatus == LastStatus(GlobalStatus(ActiveRound(st, input), cfg.critical))
  {
  }

  lemma LatchMoves(cfg: Settings, st: LoopState)
    requires HasSecondaryProber(cfg)
    ensures var t := Latched(cfg, st);
      && t.lastStatus == st.lastStatus
      && (if cfg.targets.dryRun then t.role == st.role && t.up == st.up && t.lastHosts == st.lastHosts
          else t.role == Role.Secondary && t.up == st.up - {cfg.primaryRegion} && t.lastHosts == NoBaseline)
  {
  }

  /** After a tick the one couchbase_up series is the active cluster's, with its verdict, and
      the baseline is its hosts; a tick that moves to the secondary drops the primary's. */
  lemma SeriesFollowActive(cfg: Settings, f: Faults, s: Server, inputs: seq<TickInput>, input: TickInput)
    ensures var st := Running(cfg, f, s, inputs);
      var t, status := TickState(cfg, st, input), GlobalStatus(ActiveRound(st, input), cfg.critical);
      && t.lastStatus == LastStatus(status)
      && (if t.role == st.role
          then t.up == map[st.region := status != Down] && t.lastHosts == Baseline(HostsOf(ActiveRound(st, input)))
          else t.role == Role.Secondary && t.up == map[] && t.lastHosts == NoBaseline)
  {
    var st, adopted := Running(cfg, f, s, inputs), Adopted(cfg, f, s);
    var (action, server) := Decided(cfg, st, input);
    RunKeepsInv(cfg, f, s, inputs);
    RecordsActive(cfg, adopted, st, input);
    if action == Ran(true) {
      DecidedMeans(cfg, st, input);
      LatchMoves(cfg, Recorded(cfg, st, input).(server := server));
    }
  }

  /** The secondary is configured, could be connected, and answers other than DOWN. */
  predicate SecondaryUsable(cfg: Settings, input: TickInput) {
    cfg.targets.secondary != "" && cfg.secondaryConnected && GlobalStatus(input.secondary, cfg.critical) != Down
  }

  /** The switch succeeded in this tick: on the actuator's word alone when there is one,
      otherwise on the webhook's, of which there is none to wait for in a dry run. */
  predicate Succeeds(cfg: Settings, st: LoopState, input: TickInput) {
    if cfg.k8s then SwitchCall(cfg.targets, input.faults, input.stamp, st.server).errs == []
    else !cfg.webhook || cfg.targets.dryRun || N.ResultOf(input.network, cfg.retries) == N.Delivered
  }

  /** When the DOWN window of this tick opened, if it is a DOWN tick. */
  function OpenedAt(st: LoopState, input: TickInput): int {
    if st.machine.inDown then st.machine.firstDownAt else input.clock
  }

  /** The active cluster is DOWN and has been for the delay, and nothing has latched. */
  predicate DueNow(cfg: Settings, st: LoopState, input: TickInput) {
    && GlobalStatus(ActiveRound(st, input), cfg.critical) == Down && !st.machine.switched
    && input.clock - OpenedAt(st, input) >= cfg.failoverDelay
  }

  lemma DecidesWhen(cfg: Settings, adopted: bool, st: LoopState, input: TickInput)
    requires Coherent(cfg, adopted, st)
    ensures OutOf(cfg, st, input).required <==> DueNow(cfg, st, input)
    ensures Decided(cfg, st, input).0
         == if !DueNow(cfg, st, input) then NoAction else if cfg.targets.secondary == "" then Skipped
            else if !SecondaryUsable(cfg, input) then Held(Down) else Ran(Succeeds(cfg, st, input))
    ensures Decided(cfg, st, input).1
         == if DueNow(cfg, st, input) && SecondaryUsable(cfg, input) && cfg.k8s
            then SwitchCall(cfg.targets, input.faults, input.stamp, st.server).server else st.server
  {
  }

  lemma TickKeepsTime(cfg: Settings, adopted: bool, st: LoopState, input: TickInput)
    requires Coherent(cfg, adopted, st)
    ensures var t, down := TickState(cfg, st, input), GlobalStatus(ActiveRound(st, input), cfg.critical) == Down;
      && (t.machine.inDown <==> down) && (down ==> t.machine.firstDownAt == OpenedAt(st, input))
      && (t.machine.switched <==> st.machine.switched || Decided(cfg, st, input).0 == Ran(true))
      && t.server == Decided(cfg, st, input).1
  {
  }

  /** What a tick does, and that a due tick with a usable secondary latches exactly when the
      switch succeeds. */
  lemma TickDecides(cfg: Settings, f: Faults, s: Server, inputs: seq<TickInput>, input: TickInput)
    ensures var st := Running(cfg, f, s, inputs);
      var out, t, due := OutOf(cfg, st, input), TickState(cfg, st, input), DueNow(cfg, st, input);
      var down := GlobalStatus(ActiveRound(st, input), cfg.critical) == Down;
      && (out.required <==> due)
      && out.action == (if !due then NoAction else if cfg.targets.secondary == "" then Skipped
                        else if !SecondaryUsable(cfg, input) then Held(Down) else Ran(Succeeds(cfg, st, input)))
      && (t.machine.inDown <==> down) && (down ==> t.machine.firstDownAt == OpenedAt(st, input))
      && (t.machine.switched <==>
            st.machine.switched || (due && SecondaryUsable(cfg, input) && Succeeds(cfg, st, input)))
      && t.server == (if due && SecondaryUsable(cfg, input) && cfg.k8s
                      then SwitchCall(cfg.targets, input.faults, input.stamp, st.server).server else st.server)
  {
    var st := Running(cfg, f, s, inputs);
    RunKeepsInv(cfg, f, s, inputs);
    DecidesWhen(cfg, Adopted(cfg, f, s), st, input);
    TickKeepsTime(cfg, Adopted(cfg, f, s), st, input);
  }
}

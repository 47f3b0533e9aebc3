/** Process lives: boot, tick, die anywhere, boot again. What reconciliation sees, what all
    lives together do to the cluster, and the one thing a crash can leave undone. */
module Lives {
  import opened Ordering
  import opened Kube
  import opened Actuator
  import opened Fanout
  import opened Convergence
  import opened StateMachine
  import opened Health
  import opened Loop
  import P = Protocol
  import R = RollSafety
  import Refinement
  import H = Honesty
  import L = LoopLaws
  import N = Notify

  // ----- reconciliation -----

  lemma StaleStep(cfg: Config, f: Faults, init: seq<Ref>, r: Ref, s: Server)
    ensures StaleRefs(cfg, f, init + [r], s)
         == StaleRefs(cfg, f, init, s) + if Readable(f, s, r) && On(cfg, s, r) then [] else [r]
  {
    assert (init + [r])[..|init|] == init;
  }

  lemma {:induction false} StaleMeans(cfg: Config, f: Faults, refs: seq<Ref>, s: Server)
    ensures StaleRefs(cfg, f, refs, s) == [] <==> forall r :: r in refs ==> Readable(f, s, r) && On(cfg, s, r)
  {
    if refs != [] {
      var init, last := refs[..|refs| - 1], refs[|refs| - 1];
      StaleMeans(cfg, f, init, s);
      StaleStep(cfg, f, init, last, s);
      assert refs == init + [last];
      assert forall r :: r in refs <==> r in init || r == last;
    }
  }

  /** A boot adopts a finished switch exactly when a secondary and targets are configured and
      every ConfigMap target is readable and on the secondary. */
  lemma AdoptsIff(cfg: Config, f: Faults, s: Server)
    ensures Reconcile(cfg, f, s).already
       <==> && cfg.secondary != "" && cfg.configMaps != []
            && forall r :: r in cfg.configMaps ==> Readable(f, s, r) && On(cfg, s, r)
  {
    StaleMeans(cfg, f, cfg.configMaps, s);
  }

  /** The targets whose turn in the patch phase raised the pending count or recorded a
      failed read. */
  function Counted(cfg: Config, f: Faults, refs: seq<Ref>, s: Server): seq<Ref> {
    if refs == [] then []
    else
      var r, init := refs[|refs| - 1], refs[..|refs| - 1];
      var before, after := PatchAll(cfg, f, init, s).led, PatchAll(cfg, f, refs, s).led;
      Counted(cfg, f, init, s)
      + if after.pending > before.pending || after.errs == before.errs + [Failed(GetConfigMap, r)] then [r] else []
  }

  /** Startup names as stale exactly the targets, in order, that the actuator would count
      as pending or fail to read under the same faults. */
  lemma {:induction false} ReconcileAgreesWithPatch(cfg: Config, f: Faults, refs: seq<Ref>, s: Server)
    requires Distinct(refs)
    ensures StaleRefs(cfg, f, refs, s) == Counted(cfg, f, refs, s)
  {
    if refs != [] {
      var r, init := refs[|refs| - 1], refs[..|refs| - 1];
      ReconcileAgreesWithPatch(cfg, f, init, s);
      PatchMeaning(cfg, f, init, s);
      var p := PatchAll(cfg, f, init, s);
      assert r !in init;
      PatchSees(cfg, f, init, r, s, p.server);
      LedgerStep(cfg, f, r, p);
    }
  }

  lemma LedgerStep(cfg: Config, f: Faults, r: Ref, p: Patch)
    ensures var led := PatchOne(cfg, f, r, p).led;
      (led.pending > p.led.pending || led.errs == p.led.errs + [Failed(GetConfigMap, r)])
      <==> !Readable(f, p.server, r) || Behind(cfg, f, p.server, r)
  {
    assert p.led.errs != p.led.errs + [Failed(GetConfigMap, r)];
  }

  // ----- lives -----

  /** A process that boots, ticks, and dies in the tick `last`: if that tick calls the
      actuator, after `n` steps of the call. */
  datatype Life = Life(bootFaults: Faults, inputs: seq<TickInput>, last: TickInput, n: nat)

  function CallSteps(cfg: Settings, life: Life, s: Server): seq<P.Event> {
    var st := Ticks(cfg, Boot(cfg, life.bootFaults, s), life.inputs);
    var events := Refinement.CallEvents(cfg.targets, life.last.faults, life.last.stamp, st.server);
    if cfg.k8s && Decided(cfg, st, life.last).0.Ran? then events[..if life.n <= |events| then life.n else |events|]
    else []
  }

  /** The cluster a life leaves behind. */
  function AfterLife(cfg: Settings, life: Life, s: Server): Server {
    var st := Ticks(cfg, Boot(cfg, life.bootFaults, s), life.inputs);
    P.Run(cfg.targets, P.Start(st.server), CallSteps(cfg, life, s)).server
  }

  function AfterLives(cfg: Settings, lives: seq<Life>, s: Server): Server {
    if lives == [] then s
    else AfterLife(cfg, lives[|lives| - 1], AfterLives(cfg, lives[..|lives| - 1], s))
  }

  /** A life that is not cut short leaves what its ticks leave. */
  lemma UncutLife(cfg: Settings, life: Life, s: Server)
    requires var st := Ticks(cfg, Boot(cfg, life.bootFaults, s), life.inputs);
      life.n >= |Refinement.CallEvents(cfg.targets, life.last.faults, life.last.stamp, st.server)|
    ensures AfterLife(cfg, life, s) == Ticks(cfg, Boot(cfg, life.bootFaults, s), life.inputs + [life.last]).server
  {
    var st := Ticks(cfg, Boot(cfg, life.bootFaults, s), life.inputs);
    var events := Refinement.CallEvents(cfg.targets, life.last.faults, life.last.stamp, st.server);
    assert (life.inputs + [life.last])[..|life.inputs|] == life.inputs;
    assert events[..|events|] == events;
    Refinement.CallIsRun(cfg.targets, life.last.faults, life.last.stamp, P.Start(st.server));
    UncutTick(cfg, st, life.last);
  }

  lemma UncutTick(cfg: Settings, st: LoopState, input: TickInput)
    ensures TickState(cfg, st, input).server
         == if cfg.k8s && Decided(cfg, st, input).0.Ran?
            then SwitchCall(cfg.targets, input.faults, input.stamp, st.server).server else st.server
  {
  }

  /** Some run of the protocol leads from one server to the other and ends idle. */
  ghost predicate Reaches(cfg: Config, s: Server, t: Server) {
    exists events :: Leads(cfg, s, events, t)
  }

  predicate Leads(cfg: Config, s: Server, events: seq<P.Event>, t: Server) {
    var w := P.Run(cfg, P.Start(s), events);
    w.phase == P.Idle && w.server == t
  }

  /** Results already returned do not influence a run. */
  lemma {:induction false} SameCourse(cfg: Config, v: P.World, w: P.World, events: seq<P.Event>)
    requires v.server == w.server && v.phase == w.phase
    ensures var x, y := P.Run(cfg, v, events), P.Run(cfg, w, events); x.server == y.server && x.phase == y.phase
  {
    if events != [] {
      var init := events[..|events| - 1];
      SameCourse(cfg, v, w, init);
      SameNext(cfg, P.Run(cfg, v, init), P.Run(cfg, w, init), events[|events| - 1]);
    }
  }

  lemma SameNext(cfg: Config, v: P.World, w: P.World, e: P.Event)
    requires v.server == w.server && v.phase == w.phase
    ensures var x, y := P.Next(cfg, v, e), P.Next(cfg, w, e); x.server == y.server && x.phase == y.phase
  {
  }

  lemma ReachesThrough(cfg: Config, s: Server, t: Server, u: Server)
    requires Reaches(cfg, s, t) && Reaches(cfg, t, u)
    ensures Reaches(cfg, s, u)
  {
    var a :| Leads(cfg, s, a, t);
    var b :| Leads(cfg, t, b, u);
    P.RunAppend(cfg, P.Start(s), a, b);
    SameCourse(cfg, P.Run(cfg, P.Start(s), a), P.Start(t), b);
    assert Leads(cfg, s, a + b, u);
  }

  lemma ReachesItself(cfg: Config, s: Server)
    ensures Reaches(cfg, s, s)
  {
    assert Leads(cfg, s, [], s);
  }

  /** Dying loses the ledger, not the cluster. */
  lemma CrashReaches(cfg: Config, s: Server, events: seq<P.Event>)
    ensures Reaches(cfg, s, P.Run(cfg, P.Start(s), events).server)
  {
    P.RunAppend(cfg, P.Start(s), events, [P.Crash]);
    Refinement.RunOne(cfg, P.Run(cfg, P.Start(s), events), P.Crash);
    assert Leads(cfg, s, events + [P.Crash], P.Run(cfg, P.Start(s), events).server);
  }

  lemma CallReaches(cfg: Config, f: Faults, stamp: string, s: Server)
    ensures Reaches(cfg, s, SwitchCall(cfg, f, stamp, s).server)
  {
    Refinement.CallIsRun(cfg, f, stamp, P.Start(s));
    assert Leads(cfg, s, Refinement.CallEvents(cfg, f, stamp, s), SwitchCall(cfg, f, stamp, s).server);
  }

  lemma {:induction false} TicksReach(cfg: Settings, st: LoopState, inputs: seq<TickInput>)
    ensures Reaches(cfg.targets, st.server, Ticks(cfg, st, inputs).server)
  {
    if inputs == [] {
      ReachesItself(cfg.targets, st.server);
    } else {
      var before, input := Ticks(cfg, st, inputs[..|inputs| - 1]), inputs[|inputs| - 1];
      TicksReach(cfg, st, inputs[..|inputs| - 1]);
      TickServer(cfg, before, input);
      CallReaches(cfg.targets, input.faults, input.stamp, before.server);
      ReachesItself(cfg.targets, before.server);
      ReachesThrough(cfg.targets, st.server, before.server, Ticks(cfg, st, inputs).server);
    }
  }

  lemma TickServer(cfg: Settings, st: LoopState, input: TickInput)
    ensures TickState(cfg, st, input).server
      in {st.server, SwitchCall(cfg.targets, input.faults, input.stamp, st.server).server}
  {
  }

  /** Everything any number of lives does to the cluster is one run of the protocol. */
  lemma {:induction false} LivesAreOneRun(cfg: Settings, lives: seq<Life>, s: Server)
    ensures Reaches(cfg.targets, s, AfterLives(cfg, lives, s))
  {
    if lives == [] {
      ReachesItself(cfg.targets, s);
    } else {
      var life, t := lives[|lives| - 1], AfterLives(cfg, lives[..|lives| - 1], s);
      var st := Ticks(cfg, Boot(cfg, life.bootFaults, t), life.inputs);
      LivesAreOneRun(cfg, lives[..|lives| - 1], s);
      assert Boot(cfg, life.bootFaults, t).server == t;
      TicksReach(cfg, Boot(cfg, life.bootFaults, t), life.inputs);
      CrashReaches(cfg.targets, st.server, CallSteps(cfg, life, t));
      ReachesThrough(cfg.targets, s, t, st.server);
      ReachesThrough(cfg.targets, s, st.server, AfterLives(cfg, lives, s));
    }
  }

  /** Over any number of lives, dying anywhere, a Deployment is rolled at most once and a
      stamp that was not there at the start is honest. */
  lemma LivesAreSafe(cfg: Settings, lives: seq<Life>, s: Server, d: Ref)
    requires d in s.deployments
    ensures var t := AfterLives(cfg, lives, s);
      && d in t.deployments && t.deployments[d].rolls <= s.deployments[d].rolls + 1
      && (!Stamped(cfg.targets, s, d) && Stamped(cfg.targets, t, d) ==>
            R.MapsOn(cfg.targets, t.deployments[d].podsRead, d.ns) && R.MapsOn(cfg.targets, t.configMaps, d.ns))
  {
    LivesAreOneRun(cfg, lives, s);
    var events :| Leads(cfg.targets, s, events, AfterLives(cfg, lives, s));
    H.RollsAtMostOnce(cfg.targets, s, events, d);
    if !Stamped(cfg.targets, s, d) {
      H.StampHonesty(cfg.targets, s, events, d);
    }
  }

  // ----- a long outage -----

  lemma ReachKeepsKeys(cfg: Config, s: Server, t: Server)
    requires Reaches(cfg, s, t)
    ensures t.configMaps.Keys == s.configMaps.Keys && t.deployments.Keys == s.deployments.Keys
  {
    var events :| Leads(cfg, s, events, t);
    R.RunKeepsInv(cfg, s, events);
  }

  lemma ReachKeepsTargets(cfg: Config, s: Server, t: Server)
    requires Reaches(cfg, s, t) && TargetsExist(cfg, s)
    ensures TargetsExist(cfg, t)
  {
    ReachKeepsKeys(cfg, s, t);
    assert forall r :: r in cfg.configMaps ==> r in t.configMaps.Keys;
    assert forall d :: d in cfg.deployments ==> d in t.deployments.Keys;
  }

  lemma ReachKeepsHonesty(cfg: Config, s: Server, t: Server)
    requires Reaches(cfg, s, t) && H.Honest(cfg, s)
    ensures H.Honest(cfg, t)
  {
    var events :| Leads(cfg, s, events, t);
    H.HonestyKept(cfg, s, events);
  }

  /** In this tick the secondary is up and no API request fails. */
  predicate Clear(cfg: Settings, input: TickInput) {
    && GlobalStatus(input.secondary, cfg.critical) != Down
    && forall op :: op in input.faults ==> input.faults[op] == Served
  }

  lemma ClearWouldLatch(cfg: Settings, st: LoopState, input: TickInput)
    requires cfg.k8s && !cfg.targets.dryRun && cfg.targets.configMaps != [] && HasSecondaryProber(cfg)
    requires TargetsExist(cfg.targets, st.server) && Clear(cfg, input)
    ensures L.WouldLatch(cfg, st, input)
  {
    FaultFreeConverges(cfg.targets, input.faults, input.stamp, st.server);
  }

  lemma DueTickLatches(cfg: Settings, f: Faults, s: Server, inputs: seq<TickInput>, a: nat)
    requires cfg.k8s && !cfg.targets.dryRun && cfg.targets.configMaps != [] && TargetsExist(cfg.targets, s)
    requires HasSecondaryProber(cfg) && L.DownSince(cfg, Boot(cfg, f, s), inputs, a)
    requires !L.Running(cfg, f, s, inputs[..|inputs| - 1]).machine.switched
    requires inputs[|inputs| - 1].clock >= inputs[a].clock + cfg.failoverDelay && Clear(cfg, inputs[|inputs| - 1])
    ensures L.Running(cfg, f, s, inputs).machine.switched
  {
    var st0, n := Boot(cfg, f, s), |inputs| - 1;
    var before := Ticks(cfg, st0, inputs[..n]);
    TicksReach(cfg, st0, inputs[..n]);
    ReachKeepsTargets(cfg.targets, s, before.server);
    ClearWouldLatch(cfg, before, inputs[n]);
    L.RetriedEveryDueTick(cfg, st0, inputs, a);
  }

  /** On any run: once the primary has been DOWN for the delay, one tick with the secondary
      up and no faults latches, whatever failed in the ticks before. */
  lemma OutageLatches(cfg: Settings, f: Faults, s: Server, inputs: seq<TickInput>, a: nat)
    requires cfg.k8s && !cfg.targets.dryRun && cfg.targets.configMaps != [] && TargetsExist(cfg.targets, s)
    requires HasSecondaryProber(cfg) && L.DownUntilLatch(cfg, Boot(cfg, f, s), inputs, a)
    requires inputs[|inputs| - 1].clock >= inputs[a].clock + cfg.failoverDelay && Clear(cfg, inputs[|inputs| - 1])
    ensures L.Running(cfg, f, s, inputs).machine.switched
  {
    var st0, n := Boot(cfg, f, s), |inputs| - 1;
    if Ticks(cfg, st0, inputs[..n]).machine.switched {
      L.TickAfterLatch(cfg, Ticks(cfg, st0, inputs[..n]), inputs[n]);
    } else {
      assert inputs[..n + 1] == inputs;
      L.DownToDue(cfg, st0, inputs, a, n);
      DueTickLatches(cfg, f, s, inputs, a);
    }
  }

  /** If it did not adopt, every target is then on the secondary, and the pods read it if no
      stamp was dishonest at the boot. */
  lemma OutageConverges(cfg: Settings, f: Faults, s: Server, inputs: seq<TickInput>, a: nat)
    requires cfg.k8s && !cfg.targets.dryRun && cfg.targets.configMaps != [] && TargetsExist(cfg.targets, s)
    requires HasSecondaryProber(cfg) && !L.Adopted(cfg, f, s)
    requires L.DownUntilLatch(cfg, Boot(cfg, f, s), inputs, a)
    requires inputs[|inputs| - 1].clock >= inputs[a].clock + cfg.failoverDelay && Clear(cfg, inputs[|inputs| - 1])
    ensures var t := L.Running(cfg, f, s, inputs).server;
      Converged(cfg.targets, t) && (H.Honest(cfg.targets, s) ==> H.PodsFollow(cfg.targets, t))
  {
    var t := L.Running(cfg, f, s, inputs).server;
    OutageLatches(cfg, f, s, inputs, a);
    L.LatchMeansConverged(cfg, f, s, inputs);
    TicksReach(cfg, Boot(cfg, f, s), inputs);
    assert Reaches(cfg.targets, s, t);
    if H.Honest(cfg.targets, s) {
      ReachKeepsHonesty(cfg.targets, s, t);
    }
  }

  predicate ConvergedAt(cfg: Settings, f: Faults, s: Server, inputs: seq<TickInput>, b: nat)
    requires b < |inputs|
  {
    Converged(cfg.targets, L.Running(cfg, f, s, inputs[..b + 1]).server)
  }

  lemma ConvergesAt(cfg: Settings, f: Faults, s: Server, inputs: seq<TickInput>, a: nat, b: nat)
    requires cfg.k8s && !cfg.targets.dryRun && cfg.targets.configMaps != [] && TargetsExist(cfg.targets, s)
    requires HasSecondaryProber(cfg) && !L.Adopted(cfg, f, s)
    requires L.DownUntilLatch(cfg, Boot(cfg, f, s), inputs, a) && a <= b < |inputs|
    requires inputs[b].clock >= inputs[a].clock + cfg.failoverDelay && Clear(cfg, inputs[b])
    ensures ConvergedAt(cfg, f, s, inputs, b)
  {
    L.DownUntilLatchPrefix(cfg, Boot(cfg, f, s), inputs, a, b + 1);
    ConvergesBy(cfg, f, s, inputs[..b + 1], a, b);
  }

  lemma ConvergesBy(cfg: Settings, f: Faults, s: Server, upTo: seq<TickInput>, a: nat, b: nat)
    requires cfg.k8s && !cfg.targets.dryRun && cfg.targets.configMaps != [] && TargetsExist(cfg.targets, s)
    requires HasSecondaryProber(cfg) && !L.Adopted(cfg, f, s)
    requires |upTo| == b + 1 && a <= b && L.DownUntilLatch(cfg, Boot(cfg, f, s), upTo, a)
    requires upTo[b].clock >= upTo[a].clock + cfg.failoverDelay && Clear(cfg, upTo[b])
    ensures Converged(cfg.targets, L.Running(cfg, f, s, upTo).server)
  {
    OutageConverges(cfg, f, s, upTo, a);
  }

  /** With ticks at most `g` apart the targets are on the secondary less than `g` after the
      due time. */
  lemma ConvergesInTime(cfg: Settings, f: Faults, s: Server, inputs: seq<TickInput>, a: nat, g: int)
    requires cfg.k8s && !cfg.targets.dryRun && cfg.targets.configMaps != [] && TargetsExist(cfg.targets, s)
    requires HasSecondaryProber(cfg) && !L.Adopted(cfg, f, s)
    requires L.DownUntilLatch(cfg, Boot(cfg, f, s), inputs, a)
    requires var due := inputs[a].clock + cfg.failoverDelay;
      && inputs[|inputs| - 1].clock >= due
      && forall k :: a <= k < |inputs| && inputs[k].clock >= due ==> Clear(cfg, inputs[k])
    requires cfg.failoverDelay + g > 0 && forall k :: a < k < |inputs| ==> inputs[k].clock <= inputs[k - 1].clock + g
    ensures exists b: nat ::
      && a <= b < |inputs| && ConvergedAt(cfg, f, s, inputs, b)
      && inputs[b].clock < inputs[a].clock + cfg.failoverDelay + g
  {
    var b := L.FirstDue(inputs, a, inputs[a].clock + cfg.failoverDelay);
    ConvergesAt(cfg, f, s, inputs, a, b);
    assert b > a ==> inputs[b].clock <= inputs[b - 1].clock + g;
  }

  // ----- what a crash can leave undone -----

  /** The steps of a fault-free call that dies after rolling the first `k` Deployments;
      `k == 0` is a death between the phases. */
  function DyingCall(cfg: Config, stamp: string, s: Server, k: nat): seq<P.Event>
    requires cfg.configMaps != [] && k <= |cfg.deployments|
  {
    var p := PatchAll(cfg, map[], cfg.configMaps, s);
    Refinement.PatchPhase(cfg, map[], stamp, s)
    + Refinement.RollEvents(cfg, map[], p.led, stamp, k, p.server) + [P.Crash]
  }

  lemma PatchPhaseEnds(cfg: Config, stamp: string, s: Server)
    requires cfg.configMaps != [] && !cfg.dryRun
    ensures var p := PatchAll(cfg, map[], cfg.configMaps, s);
      P.Run(cfg, P.Start(s), Refinement.PatchPhase(cfg, map[], stamp, s))
      == P.World(p.server, P.GetDep(0, p.led, stamp, 0, []), P.NoResult, false)
  {
    Refinement.PatchPhaseRuns(cfg, map[], stamp, P.Start(s));
  }

  lemma DyingCallRuns(cfg: Config, stamp: string, s: Server, k: nat)
    requires cfg.configMaps != [] && !cfg.dryRun && k <= |cfg.deployments|
    ensures var p, w := PatchAll(cfg, map[], cfg.configMaps, s), P.Run(cfg, P.Start(s), DyingCall(cfg, stamp, s, k));
      w.phase == P.Idle && w.server == RollAll(cfg, map[], p.led, stamp, cfg.deployments[..k], p.server).server
  {
    var p := PatchAll(cfg, map[], cfg.configMaps, s);
    var patches := Refinement.PatchPhase(cfg, map[], stamp, s);
    var v := P.World(p.server, P.GetDep(0, p.led, stamp, 0, []), P.NoResult, false);
    PatchPhaseEnds(cfg, stamp, s);
    DyingRollRuns(cfg, p.led, stamp, v, k);
    var rest := Refinement.RollEvents(cfg, map[], p.led, stamp, k, p.server) + [P.Crash];
    assert DyingCall(cfg, stamp, s, k) == patches + rest;
    Refinement.RunThen(cfg, P.Start(s), patches, v, rest);
  }

  lemma DyingRollRuns(cfg: Config, led: Ledger, stamp: string, v: P.World, k: nat)
    requires v.phase == P.GetDep(0, led, stamp, 0, []) && k <= |cfg.deployments|
    ensures var w := P.Run(cfg, v, Refinement.RollEvents(cfg, map[], led, stamp, k, v.server) + [P.Crash]);
      w.phase == P.Idle && w.server == RollAll(cfg, map[], led, stamp, cfg.deployments[..k], v.server).server
  {
    var rolls := Refinement.RollEvents(cfg, map[], led, stamp, k, v.server);
    var r := RollAll(cfg, map[], led, stamp, cfg.deployments[..k], v.server);
    Refinement.RollRuns(cfg, map[], led, stamp, v, k);
    CrashAfter(cfg, v, rolls, Refinement.AtRoll(led, stamp, v, k, r));
  }

  lemma CrashAfter(cfg: Config, v: P.World, events: seq<P.Event>, u: P.World)
    requires P.Run(cfg, v, events) == u
    ensures P.Run(cfg, v, events + [P.Crash]) == u.(phase := P.Idle)
  {
    Refinement.RunThen(cfg, v, events, u, [P.Crash]);
    Refinement.RunOne(cfg, u, P.Crash);
  }

  lemma FaultFreeMaps(cfg: Config, s: Server)
    requires !cfg.dryRun && TargetsExist(cfg, s)
    ensures StuckNS(cfg, map[], cfg.configMaps, s) == {}
    ensures forall r :: r in cfg.configMaps ==>
      r in s.configMaps && DataOn(cfg, PatchedMaps(cfg, map[], cfg.configMaps, s)[r])
  {
    forall r | r in cfg.configMaps
      ensures !Stuck(cfg, map[], s, r) && (Repointed(cfg, map[], s, r) || DataOn(cfg, s.configMaps[r]))
    {
    }
  }

  lemma FaultFreePatch(cfg: Config, s: Server)
    requires !cfg.dryRun && TargetsExist(cfg, s)
    ensures var p := PatchAll(cfg, map[], cfg.configMaps, s);
      && p.server.deployments == s.deployments && p.led.failedNS == {}
      && forall r :: r in cfg.configMaps ==> On(cfg, p.server, r)
  {
    PatchMeaning(cfg, map[], cfg.configMaps, s);
    FaultFreeMaps(cfg, s);
  }

  lemma FaultFreeRolls(cfg: Config, led: Ledger, stamp: string, refs: seq<Ref>, s: Server)
    requires led.failedNS == {}
    ensures var t := RollAll(cfg, map[], led, stamp, refs, s).server;
      && t.configMaps == s.configMaps
      && (forall d :: d in refs && d in s.deployments ==> Stamped(cfg, t, d))
      && (forall d :: d in s.deployments && d !in refs ==> d in t.deployments && t.deployments[d] == s.deployments[d])
  {
    RollMeaning(cfg, map[], led, stamp, refs, s);
    forall d | d in refs && d in s.deployments
      ensures TemplateStamped(cfg, RolledDeployments(cfg, map[], led, stamp, refs, s)[d].template)
    {
      FaultFreeRoll(cfg, led, stamp, s, d);
    }
  }

  lemma FaultFreeRoll(cfg: Config, led: Ledger, stamp: string, s: Server, d: Ref)
    requires led.failedNS == {} && d in s.deployments
    ensures var was := s.deployments[d];
      TemplateStamped(cfg, (if Rolled(cfg, map[], led, s, d) then Restarted(cfg, s, d, stamp) else was).template)
  {
  }

  /** A process that dies after its patch phase and `k` rolls leaves every ConfigMap on the
      secondary, those `k` Deployments stamped, and every other one as it was. */
  lemma CrashAfterRolls(cfg: Config, stamp: string, s: Server, k: nat)
    requires cfg.configMaps != [] && !cfg.dryRun && TargetsExist(cfg, s) && k <= |cfg.deployments|
    ensures var t := P.Run(cfg, P.Start(s), DyingCall(cfg, stamp, s, k)).server;
      && (forall r :: r in cfg.configMaps ==> On(cfg, t, r))
      && (forall d :: d in cfg.deployments[..k] ==> Stamped(cfg, t, d))
      && (forall d :: d in s.deployments && d !in cfg.deployments[..k] ==>
            d in t.deployments && t.deployments[d] == s.deployments[d])
  {
    var p, t := PatchAll(cfg, map[], cfg.configMaps, s), P.Run(cfg, P.Start(s), DyingCall(cfg, stamp, s, k)).server;
    DyingCallRuns(cfg, stamp, s, k);
    FaultFreePatch(cfg, s);
    FaultFreeRolls(cfg, p.led, stamp, cfg.deployments[..k], p.server);
    forall r | r in cfg.configMaps ensures On(cfg, t, r) { assert On(cfg, p.server, r); }
    assert forall d :: d in cfg.deployments[..k] ==> d in cfg.deployments;
  }

  // ----- who strands a Deployment -----

  predicate Untouched(cfg: Settings, f: Faults, s: Server, inputs: seq<TickInput>, d: Ref)
    requires d in s.deployments
  {
    var t := L.Running(cfg, f, s, inputs).server;
    d in t.deployments && t.deployments[d] == s.deployments[d]
  }

  /** Some critical service is one the probers never ping, so no cluster is ever seen up. */
  predicate NeverObserved(cfg: Settings) {
    exists c :: c in cfg.critical && c !in PINGED
  }

  /** No run of a process with this configuration ever calls the actuator for real. */
  predicate CannotAct(cfg: Settings) {
    || !cfg.k8s || cfg.targets.dryRun || cfg.targets.configMaps == [] || !HasSecondaryProber(cfg)
    || cfg.critical == [] || NeverObserved(cfg)
  }

  /** A ConfigMap target of the Deployment's namespace does not exist. */
  predicate Blocked(cfg: Config, s: Server, d: Ref) {
    exists r :: r in cfg.configMaps && r.ns == d.ns && r !in s.configMaps
  }

  lemma NeverUp(cfg: Settings, ps: seq<Probe>)
    requires NeverObserved(cfg) && Services(ps) <= PINGED
    ensures GlobalStatus(ps, cfg.critical) == Down
  {
    var c :| c in cfg.critical && c !in PINGED;
    assert CriticalBad(ps, c);
  }

  lemma QuietTick(cfg: Settings, st: LoopState, input: TickInput)
    requires CannotAct(cfg) && Receivable(input)
    ensures TickState(cfg, st, input).server == st.server
  {
    TickServer(cfg, st, input);
    L.DecidedMeans(cfg, st, input);
    if cfg.targets.dryRun {
      DryRunWritesNothing(cfg.targets, input.faults, input.stamp, st.server);
    }
    if NeverObserved(cfg) {
      NeverUp(cfg, input.secondary);
    }
  }

  lemma {:induction false} QuietTicks(cfg: Settings, st: LoopState, inputs: seq<TickInput>)
    requires CannotAct(cfg) && AllReceivable(inputs)
    ensures Ticks(cfg, st, inputs).server == st.server
  {
    if inputs != [] {
      QuietTicks(cfg, st, inputs[..|inputs| - 1]);
      QuietTick(cfg, Ticks(cfg, st, inputs[..|inputs| - 1]), inputs[|inputs| - 1]);
    }
  }

  /** Concretely: a service that is never pinged, the empty flag (which splits into one empty
      name), and a list written with a space after its comma. Such a process never acts. */
  lemma NeverObservedExamples(cfg: Settings, f: Faults, s: Server, inputs: seq<TickInput>)
    requires cfg.critical == ["index"] || cfg.critical == [""] || cfg.critical == ["kv", " query"]
    requires AllReceivable(inputs)
    ensures L.Running(cfg, f, s, inputs).server == s
  {
    assert cfg.critical[|cfg.critical| - 1] !in PINGED;
    QuietTicks(cfg, Boot(cfg, f, s), inputs);
  }

  lemma BlockedCall(cfg: Config, f: Faults, stamp: string, s: Server, d: Ref)
    requires Blocked(cfg, s, d) && d in s.deployments
    ensures var t := SwitchCall(cfg, f, stamp, s).server;
      Blocked(cfg, t, d) && d in t.deployments && t.deployments[d] == s.deployments[d]
  {
    var r :| r in cfg.configMaps && r.ns == d.ns && r !in s.configMaps;
    if cfg.dryRun {
      DryRunWritesNothing(cfg, f, stamp, s);
    } else {
      CallServer(cfg, f, stamp, s);
      assert Stuck(cfg, f, s, r);
      assert d.ns in StuckNS(cfg, f, cfg.configMaps, s);
    }
  }

  lemma {:induction false} BlockedTicks(cfg: Settings, st: LoopState, inputs: seq<TickInput>, d: Ref)
    requires Blocked(cfg.targets, st.server, d) && d in st.server.deployments
    ensures var t := Ticks(cfg, st, inputs).server;
      Blocked(cfg.targets, t, d) && d in t.deployments && t.deployments[d] == st.server.deployments[d]
  {
    if inputs != [] {
      var before, input := Ticks(cfg, st, inputs[..|inputs| - 1]), inputs[|inputs| - 1];
      BlockedTicks(cfg, st, inputs[..|inputs| - 1], d);
      TickServer(cfg, before, input);
      BlockedCall(cfg.targets, input.faults, input.stamp, before.server, d);
    }
  }

  /** A fault-free call rolls an unstamped Deployment that nothing blocks. */
  lemma CallRolls(cfg: Config, stamp: string, s: Server, d: Ref)
    requires cfg.configMaps != [] && !cfg.dryRun && !Blocked(cfg, s, d)
    requires d in cfg.deployments && d in s.deployments && !Stamped(cfg, s, d)
    ensures Stamped(cfg, SwitchCall(cfg, map[], stamp, s).server, d)
  {
    CallServer(cfg, map[], stamp, s);
    forall r | r in cfg.configMaps && r.ns == d.ns ensures !Stuck(cfg, map[], s, r) {}
    assert d.ns !in StuckNS(cfg, map[], cfg.configMaps, s);
  }

  /** A probe round in which every critical service answers. */
  function AllUp(critical: seq<string>): (ps: seq<Probe>)
    ensures forall p :: p in ps <==> p.host == "h" && p.ok && p.service in critical
  {
    if critical == [] then [] else [Probe(critical[0], "h", true)] + AllUp(critical[1..])
  }

  lemma AllUpIsUp(critical: seq<string>)
    ensures GlobalStatus(AllUp(critical), critical) != Down
  {
    forall c | c in critical ensures !CriticalBad(AllUp(critical), c) {
      assert Probe(c, "h", true) in AllUp(critical);
    }
  }

  function Outage(cfg: Settings, clock: int, stamp: string): TickInput {
    TickInput(clock, [], AllUp(cfg.critical), map[], stamp, _ => N.Attempt(N.Answered(200), 0, N.Slept))
  }

  /** A shortest outage that falls due: the ticks before the due one, and that one. */
  function OutageOpens(cfg: Settings, stamp: string): seq<TickInput> {
    if cfg.failoverDelay <= 0 then [] else [Outage(cfg, 0, stamp)]
  }

  function OutageDue(cfg: Settings, stamp: string): TickInput {
    Outage(cfg, if cfg.failoverDelay <= 0 then 0 else cfg.failoverDelay, stamp)
  }

  function Outages(cfg: Settings, stamp: string): seq<TickInput> {
    OutageOpens(cfg, stamp) + [OutageDue(cfg, stamp)]
  }

  lemma OutageReceivable(cfg: Settings, stamp: string)
    requires !NeverObserved(cfg)
    ensures AllReceivable(Outages(cfg, stamp))
  {
    forall c | c in Services(AllUp(cfg.critical)) ensures c in PINGED {
      assert c in cfg.critical;
    }
  }

  lemma OutageIsDown(cfg: Settings)
    requires cfg.critical != []
    ensures GlobalStatus([], cfg.critical) == Down
  {
    assert cfg.critical[0] in cfg.critical;
    assert CriticalBad([], cfg.critical[0]);
  }

  lemma OutageTick(cfg: Settings, st: LoopState, clock: int, stamp: string)
    requires cfg.k8s && HasSecondaryProber(cfg) && cfg.critical != []
    requires st.target == PrimaryProber && !st.machine.switched
    ensures var t, since := TickState(cfg, st, Outage(cfg, clock, stamp)),
                            if st.machine.inDown then st.machine.firstDownAt else clock;
      var c, action := SwitchCall(cfg.targets, map[], stamp, st.server), Decided(cfg, st, Outage(cfg, clock, stamp)).0;
      if clock - since >= cfg.failoverDelay
      then action.Ran? && t.server == c.server && (t.machine.switched <==> c.errs == [])
      else t.server == st.server && t.target == PrimaryProber && t.machine == MachineState(true, since, false)
  {
    AllUpIsUp(cfg.critical);
    OutageIsDown(cfg);
  }

  lemma OneTick(cfg: Settings, st: LoopState, input: TickInput)
    ensures Ticks(cfg, st, [input]) == TickState(cfg, st, input)
  {
    assert [input][..0] == [];
  }

  /** Before the due tick that outage has only opened the window. */
  lemma OutageOpened(cfg: Settings, f: Faults, s: Server, stamp: string)
    requires cfg.k8s && HasSecondaryProber(cfg) && cfg.critical != [] && !L.Adopted(cfg, f, s)
    ensures var t := L.Running(cfg, f, s, OutageOpens(cfg, stamp));
      && t.server == s && t.target == PrimaryProber && !t.machine.switched
      && t.machine.inDown == (cfg.failoverDelay > 0) && t.machine.firstDownAt == 0
  {
    if cfg.failoverDelay > 0 {
      OutageTick(cfg, Boot(cfg, f, s), 0, stamp);
      OneTick(cfg, Boot(cfg, f, s), Outage(cfg, 0, stamp));
    }
  }

  /** The outcome of that outage in a process that did not adopt: one fault-free call. */
  lemma OutageRuns(cfg: Settings, f: Faults, s: Server, stamp: string)
    requires cfg.k8s && HasSecondaryProber(cfg) && cfg.critical != [] && !L.Adopted(cfg, f, s)
    ensures var t, c := L.Running(cfg, f, s, Outages(cfg, stamp)), SwitchCall(cfg.targets, map[], stamp, s);
      t.server == c.server && (t.machine.switched <==> c.errs == [])
  {
    var opens, last := OutageOpens(cfg, stamp), OutageDue(cfg, stamp);
    OutageOpened(cfg, f, s, stamp);
    OutageTick(cfg, L.Running(cfg, f, s, opens), last.clock, stamp);
    assert (opens + [last])[..|opens|] == opens;
  }

  /** A process leaves an unstamped Deployment exactly as it is, whatever the clusters answer
      and whatever fails in its whole life, iff its configuration never lets it act, it
      adopted at boot, or a ConfigMap target of that namespace is missing. */
  lemma StrandedIff(cfg: Settings, f: Faults, s: Server, d: Ref)
    requires d in cfg.targets.deployments && d in s.deployments && !Stamped(cfg.targets, s, d)
    ensures CannotAct(cfg) || L.Adopted(cfg, f, s) || Blocked(cfg.targets, s, d)
       <==> forall inputs :: AllReceivable(inputs) ==> Untouched(cfg, f, s, inputs, d)
  {
    if CannotAct(cfg) || L.Adopted(cfg, f, s) || Blocked(cfg.targets, s, d) {
      forall inputs | AllReceivable(inputs) ensures Untouched(cfg, f, s, inputs, d) {
        StaysUntouched(cfg, f, s, inputs, d);
      }
    } else {
      OutageRuns(cfg, f, s, "");
      OutageReceivable(cfg, "");
      CallRolls(cfg.targets, "", s, d);
      assert !Untouched(cfg, f, s, Outages(cfg, ""), d);
    }
  }

  lemma StaysUntouched(cfg: Settings, f: Faults, s: Server, inputs: seq<TickInput>, d: Ref)
    requires d in s.deployments && AllReceivable(inputs)
    requires CannotAct(cfg) || L.Adopted(cfg, f, s) || Blocked(cfg.targets, s, d)
    ensures Untouched(cfg, f, s, inputs, d)
  {
    if CannotAct(cfg) {
      QuietTicks(cfg, Boot(cfg, f, s), inputs);
    } else if Blocked(cfg.targets, s, d) {
      BlockedTicks(cfg, Boot(cfg, f, s), inputs, d);
    } else {
      L.LatchIsFinal(cfg, Boot(cfg, f, s), inputs);
    }
  }

  /** A boot whose reads all succeed adopts iff nothing is left to patch. */
  lemma AdoptsIffNoMapLeft(cfg: Config, f: Faults, s: Server)
    requires forall op :: op in f ==> f[op] == Served
    ensures Reconcile(cfg, f, s).already <==> cfg.secondary != "" && cfg.configMaps != [] && MapsLeft(cfg, s) == {}
  {
    AdoptsIff(cfg, f, s);
    if MapsLeft(cfg, s) == {} {
      forall r | r in cfg.configMaps ensures On(cfg, s, r) { assert r !in MapsLeft(cfg, s); }
    }
  }

  /** Unstamped, and no run of a process booted on this server touches it. */
  ghost predicate Stranded(cfg: Settings, f: Faults, s: Server, d: Ref) {
    && d in s.deployments && !Stamped(cfg.targets, s, d)
    && forall inputs :: AllReceivable(inputs) ==> Untouched(cfg, f, s, inputs, d)
  }

  /** Whatever earlier lives did and wherever they died: the next process, if its startup
      reads succeed, strands exactly the Deployments still unstamped when every ConfigMap is
      on the secondary, and every unstamped one where it can never act or never roll. */
  lemma StrandedAfterLives(cfg: Settings, lives: seq<Life>, s: Server, f: Faults, d: Ref)
    requires d in cfg.targets.deployments && d in s.deployments
    requires forall op :: op in f ==> f[op] == Served
    ensures var t := AfterLives(cfg, lives, s);
      Stranded(cfg, f, t, d) <==>
        && !Stamped(cfg.targets, t, d)
        && (CannotAct(cfg) || Blocked(cfg.targets, s, d) || MapsLeft(cfg.targets, t) == {})
  {
    var t := AfterLives(cfg, lives, s);
    LivesAreOneRun(cfg, lives, s);
    ReachKeepsKeys(cfg.targets, s, t);
    AdoptsIffNoMapLeft(cfg.targets, f, t);
    if !Stamped(cfg.targets, t, d) {
      StrandedIff(cfg, f, t, d);
    }
  }

  /** Dying between the phases or after any number of rolls: no run of the next process
      touches a Deployment not yet rolled, stamped before or not. */
  lemma CrashStrands(cfg: Settings, stamp: string, s: Server, k: nat, f: Faults, inputs: seq<TickInput>, d: Ref)
    requires cfg.k8s && !cfg.targets.dryRun && cfg.targets.secondary != "" && cfg.targets.configMaps != []
    requires TargetsExist(cfg.targets, s) && k <= |cfg.targets.deployments|
    requires forall op :: op in f ==> f[op] == Served
    requires d in s.deployments && d !in cfg.targets.deployments[..k]
    ensures var t := P.Run(cfg.targets, P.Start(s), DyingCall(cfg.targets, stamp, s, k)).server;
      && L.Adopted(cfg, f, t) && d in t.deployments && t.deployments[d] == s.deployments[d]
      && Untouched(cfg, f, t, inputs, d)
  {
    var t := P.Run(cfg.targets, P.Start(s), DyingCall(cfg.targets, stamp, s, k)).server;
    CrashAfterRolls(cfg.targets, stamp, s, k);
    assert MapsLeft(cfg.targets, t) == {};
    AdoptsIffNoMapLeft(cfg.targets, f, t);
    L.LatchIsFinal(cfg, Boot(cfg, f, t), inputs);
  }

  /** The life of a process that boots, sees that outage, and dies in the call it makes,
      after its patch phase and `k` rolls. */
  function DyingLife(cfg: Settings, f: Faults, stamp: string, s: Server, k: nat): Life
    requires cfg.targets.configMaps != [] && k <= |cfg.targets.deployments|
  {
    Life(f, OutageOpens(cfg, stamp), OutageDue(cfg, stamp), |DyingCall(cfg.targets, stamp, s, k)| - 1)
  }

  lemma {:induction false} RollEventsPrefix(
    cfg: Config, f: Faults, led: Ledger, stamp: string, k: nat, m: nat, s: Server)
    requires k <= m <= |cfg.deployments|
    ensures Refinement.RollEvents(cfg, f, led, stamp, k, s) <= Refinement.RollEvents(cfg, f, led, stamp, m, s)
  {
    if k < m {
      RollEventsPrefix(cfg, f, led, stamp, k, m - 1, s);
    }
  }

  lemma DyingCallIsPrefix(cfg: Config, stamp: string, s: Server, k: nat)
    requires cfg.configMaps != [] && !cfg.dryRun && k <= |cfg.deployments|
    ensures var dying, call := DyingCall(cfg, stamp, s, k), Refinement.CallEvents(cfg, map[], stamp, s);
      |dying| - 1 <= |call| && dying == call[..|dying| - 1] + [P.Crash]
  {
    var p := PatchAll(cfg, map[], cfg.configMaps, s);
    var patches := Refinement.PatchPhase(cfg, map[], stamp, s);
    var rolls := Refinement.RollEvents(cfg, map[], p.led, stamp, k, p.server);
    var all := Refinement.RollEvents(cfg, map[], p.led, stamp, |cfg.deployments|, p.server);
    RollEventsPrefix(cfg, map[], p.led, stamp, k, |cfg.deployments|, p.server);
    assert Refinement.CallEvents(cfg, map[], stamp, s) == patches + (all + [P.Proceed(stamp)]);
    CutShort(patches, rolls, all, [P.Proceed(stamp)]);
  }

  lemma CutShort<T>(a: seq<T>, b: seq<T>, c: seq<T>, d: seq<T>)
    requires b <= c
    ensures |a + b| <= |a + (c + d)| && (a + (c + d))[..|a + b|] == a + b
  {
  }

  lemma DyingSteps(cfg: Settings, f: Faults, stamp: string, s: Server, k: nat)
    requires !CannotAct(cfg) && !L.Adopted(cfg, f, s) && k <= |cfg.targets.deployments|
    ensures var life := DyingLife(cfg, f, stamp, s, k);
      && L.Running(cfg, f, s, life.inputs).server == s
      && CallSteps(cfg, life, s) + [P.Crash] == DyingCall(cfg.targets, stamp, s, k)
  {
    var life := DyingLife(cfg, f, stamp, s, k);
    OutageOpened(cfg, f, s, stamp);
    OutageTick(cfg, L.Running(cfg, f, s, life.inputs), life.last.clock, stamp);
    DyingCallIsPrefix(cfg.targets, stamp, s, k);
  }

  /** That life leaves behind exactly what the dying call leaves. */
  lemma DyingLifeRuns(cfg: Settings, f: Faults, stamp: string, s: Server, k: nat)
    requires !CannotAct(cfg) && !L.Adopted(cfg, f, s) && k <= |cfg.targets.deployments|
    ensures AfterLife(cfg, DyingLife(cfg, f, stamp, s, k), s)
         == P.Run(cfg.targets, P.Start(s), DyingCall(cfg.targets, stamp, s, k)).server
  {
    var events := CallSteps(cfg, DyingLife(cfg, f, stamp, s, k), s);
    DyingSteps(cfg, f, stamp, s, k);
    CrashAfter(cfg.targets, P.Start(s), events, P.Run(cfg.targets, P.Start(s), events));
  }

  /** Concretely: of two Deployments, a process that boots on the primary, sees an outage and
      dies after its first roll strands the second. */
  lemma RollCrashExample(cfg: Settings, f: Faults, stamp: string)
    requires !CannotAct(cfg) && cfg.targets == TwoDeployments()
    ensures var t := AfterLife(cfg, DyingLife(cfg, f, stamp, OnPrimary(), 1), OnPrimary());
      Stamped(cfg.targets, t, Ref("app", "api")) && Stranded(cfg, map[], t, Ref("app", "web"))
  {
    var api, web, s := Ref("app", "api"), Ref("app", "web"), OnPrimary();
    assert cfg.targets.deployments[..1] == [api];
    assert api in cfg.targets.deployments[..1] && cfg.targets.deployments[1] == web;
    NotOnSecondary();
    AdoptsIff(cfg.targets, f, s);
    DyingLifeRuns(cfg, f, stamp, s, 1);
    CrashAfterRolls(cfg.targets, stamp, s, 1);
    forall inputs ensures Untouched(cfg, map[], AfterLife(cfg, DyingLife(cfg, f, stamp, s, 1), s), inputs, web) {
      CrashStrands(cfg, stamp, s, 1, map[], inputs, web);
    }
  }

  lemma NotOnSecondary()
    ensures var cfg, s, r := TwoDeployments(), OnPrimary(), Ref("app", "cb-conn");
      && TargetsExist(cfg, s) && r in cfg.configMaps && !On(cfg, s, r)
      && !Stamped(cfg, s, Ref("app", "web"))
  {
    assert "a" != "b" by { assert "a"[0] != "b"[0]; }
    assert TwoDeployments().configMaps[0] == Ref("app", "cb-conn");
  }

  function TwoDeployments(): Config {
    Config([Ref("app", "cb-conn")], "connstring", [Ref("app", "api"), Ref("app", "web")], "b", false)
  }

  function OnPrimary(): Server {
    var maps := map[Ref("app", "cb-conn") := map["connstring" := "a"]];
    Server(maps, map[Ref("app", "api") := Deployment(map[], 0, maps), Ref("app", "web") := Deployment(map[], 0, maps)])
  }

  /** Both exceptions of the region gauge are reachable: adopting with no secondary prober
      at once, and latching in a dry run. */
  lemma GaugeStrays(cfg: Settings, f: Faults, s: Server, stamp: string)
    requires cfg.primaryRegion != cfg.secondaryRegion
    ensures L.Adopted(cfg, f, s) && !HasSecondaryProber(cfg) ==> Strays(cfg, L.Running(cfg, f, s, []))
    ensures DryRunLatches(cfg, f, s) ==>
      AllReceivable(Outages(cfg, stamp)) && Strays(cfg, L.Running(cfg, f, s, Outages(cfg, stamp)))
  {
    if DryRunLatches(cfg, f, s) {
      PatchMeaning(cfg.targets, map[], cfg.targets.configMaps, s);
      PatchNilIff(cfg.targets, map[], cfg.targets.configMaps, s,
                  PatchAll(cfg.targets, map[], cfg.targets.configMaps, s));
      OutageReceivable(cfg, stamp);
      OutageRuns(cfg, f, s, stamp);
      L.RunKeepsInv(cfg, f, s, Outages(cfg, stamp));
    }
  }

  predicate DryRunLatches(cfg: Settings, f: Faults, s: Server) {
    && cfg.k8s && cfg.targets.dryRun && cfg.targets.configMaps != [] && TargetsExist(cfg.targets, s)
    && HasSecondaryProber(cfg) && cfg.critical != [] && !NeverObserved(cfg) && !L.Adopted(cfg, f, s)
  }

  /** The primary is watched and the gauge names the secondary. */
  predicate Strays(cfg: Settings, st: LoopState) {
    st.target == PrimaryProber && st.region == cfg.primaryRegion
    && L.GaugeNames(st, cfg.secondaryRegion) && !L.GaugeNames(st, cfg.primaryRegion)
  }
}

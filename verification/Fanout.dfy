/** A declarative reading of one actuator call, and what follows from it. Nothing in it
    mentions the order of the targets or how often one is listed. */
module Fanout {
  import opened Kube
  import opened Actuator
  import opened Ordering

  predicate Readable(f: Faults, s: Server, r: Ref) {
    r in s.configMaps && Fate(f, GetConfigMap, r) == Served
  }

  /** A ConfigMap the call can see is not on the secondary. */
  predicate Behind(cfg: Config, f: Faults, s: Server, r: Ref) {
    Readable(f, s, r) && !DataOn(cfg, s.configMaps[r])
  }

  predicate Repointed(cfg: Config, f: Faults, s: Server, r: Ref) {
    !cfg.dryRun && Behind(cfg, f, s, r) && Fate(f, UpdateConfigMap, r) != Refused
  }

  predicate Acknowledged(cfg: Config, f: Faults, s: Server, r: Ref) {
    !cfg.dryRun && Behind(cfg, f, s, r) && Fate(f, UpdateConfigMap, r) == Served
  }

  predicate Stuck(cfg: Config, f: Faults, s: Server, r: Ref) {
    !Readable(f, s, r) || (!cfg.dryRun && Behind(cfg, f, s, r) && Fate(f, UpdateConfigMap, r) != Served)
  }

  function PatchedMaps(cfg: Config, f: Faults, refs: seq<Ref>, s: Server): map<Ref, Fields> {
    map r | r in s.configMaps ::
      if r in refs && Repointed(cfg, f, s, r) then Repoint(cfg, s.configMaps[r]) else s.configMaps[r]
  }

  /** Namespaces holding a ConfigMap the call could not converge, and namespaces where it
      changed one. */
  function StuckNS(cfg: Config, f: Faults, refs: seq<Ref>, s: Server): set<string> {
    set r | r in refs && Stuck(cfg, f, s, r) :: r.ns
  }

  function MovedNS(cfg: Config, f: Faults, refs: seq<Ref>, s: Server): set<string> {
    set r | r in refs && Acknowledged(cfg, f, s, r) :: r.ns
  }

  /** The failure is what the patch phase has to report about its target. */
  predicate PatchFails(cfg: Config, f: Faults, s: Server, e: Failure) {
    && e.Failed?
    && (|| (e.verb == GetConfigMap && !Readable(f, s, e.ref))
        || (e.verb == UpdateConfigMap && !cfg.dryRun && Behind(cfg, f, s, e.ref)
            && Fate(f, UpdateConfigMap, e.ref) != Served))
  }

  ghost predicate PatchMeans(cfg: Config, f: Faults, refs: seq<Ref>, s: Server, p: Patch) {
    && p.server == s.(configMaps := PatchedMaps(cfg, f, refs, s))
    && p.led.failedNS == StuckNS(cfg, f, refs, s)
    && p.led.patchedNS == MovedNS(cfg, f, refs, s)
    && (p.led.pending > 0 <==> exists r :: r in refs && Behind(cfg, f, s, r))
    && (forall e :: e in p.led.errs <==> PatchFails(cfg, f, s, e) && e.ref in refs)
  }

  lemma {:induction false} PatchMeaning(cfg: Config, f: Faults, refs: seq<Ref>, s: Server)
    ensures PatchMeans(cfg, f, refs, s, PatchAll(cfg, f, refs, s))
  {
    if refs == [] {
      assert PatchedMaps(cfg, f, refs, s) == s.configMaps;
    } else {
      var r, init := refs[|refs| - 1], refs[..|refs| - 1];
      PatchMeaning(cfg, f, init, s);
      var p := PatchAll(cfg, f, init, s);
      assert refs == init + [r];
      PatchStepServer(cfg, f, init, r, s, p);
      PatchStepNamespaces(cfg, f, init, r, s, p);
      PatchStepPending(cfg, f, init, r, s, p);
      PatchStepListed(cfg, f, init, r, s, p);
    }
  }

  /** What the loop finds when it comes to `r` after the targets in `init`. */
  lemma PatchSees(cfg: Config, f: Faults, init: seq<Ref>, r: Ref, s: Server, t: Server)
    requires t == s.(configMaps := PatchedMaps(cfg, f, init, s))
    ensures Readable(f, t, r) <==> Readable(f, s, r)
    ensures Behind(cfg, f, t, r) <==> Behind(cfg, f, s, r) && !(r in init && Repointed(cfg, f, s, r))
  {
  }

  lemma PatchStepServer(cfg: Config, f: Faults, init: seq<Ref>, r: Ref, s: Server, p: Patch)
    requires p.server == s.(configMaps := PatchedMaps(cfg, f, init, s))
    ensures PatchOne(cfg, f, r, p).server == s.(configMaps := PatchedMaps(cfg, f, init + [r], s))
  {
    PatchOneEffect(cfg, f, r, p);
    PatchSees(cfg, f, init, r, s, p.server);
    var next, want := PatchOne(cfg, f, r, p).server.configMaps, PatchedMaps(cfg, f, init + [r], s);
    assert next.Keys == want.Keys;
    forall x | x in want ensures next[x] == want[x] {
      assert x in init + [r] <==> x in init || x == r;
    }
    assert next == want;
  }

  lemma PatchOneEffect(cfg: Config, f: Faults, r: Ref, p: Patch)
    ensures var t := PatchOne(cfg, f, r, p).server;
      && t.deployments == p.server.deployments
      && t.configMaps == if Repointed(cfg, f, p.server, r)
                         then p.server.configMaps[r := Repoint(cfg, p.server.configMaps[r])]
                         else p.server.configMaps
  {
  }

  lemma PatchStepNamespaces(cfg: Config, f: Faults, init: seq<Ref>, r: Ref, s: Server, p: Patch)
    requires p.server == s.(configMaps := PatchedMaps(cfg, f, init, s))
    requires p.led.failedNS == StuckNS(cfg, f, init, s) && p.led.patchedNS == MovedNS(cfg, f, init, s)
    ensures PatchOne(cfg, f, r, p).led.failedNS == StuckNS(cfg, f, init + [r], s)
    ensures PatchOne(cfg, f, r, p).led.patchedNS == MovedNS(cfg, f, init + [r], s)
  {
    PatchSees(cfg, f, init, r, s, p.server);
    PatchOneNamespaces(cfg, f, r, p);
    NamespacesAdd(cfg, f, init, r, s);
    assert Stuck(cfg, f, s, r) ==> Stuck(cfg, f, p.server, r) || r.ns in StuckNS(cfg, f, init, s);
    assert Acknowledged(cfg, f, s, r) ==> Acknowledged(cfg, f, p.server, r) || r.ns in MovedNS(cfg, f, init, s);
  }

  lemma PatchOneNamespaces(cfg: Config, f: Faults, r: Ref, p: Patch)
    ensures var q := PatchOne(cfg, f, r, p).led;
      && q.failedNS == p.led.failedNS + (if Stuck(cfg, f, p.server, r) then {r.ns} else {})
      && q.patchedNS == p.led.patchedNS + (if Acknowledged(cfg, f, p.server, r) then {r.ns} else {})
  {
  }

  lemma NamespacesAdd(cfg: Config, f: Faults, init: seq<Ref>, r: Ref, s: Server)
    ensures StuckNS(cfg, f, init + [r], s) == StuckNS(cfg, f, init, s) + if Stuck(cfg, f, s, r) then {r.ns} else {}
    ensures MovedNS(cfg, f, init + [r], s)
         == MovedNS(cfg, f, init, s) + if Acknowledged(cfg, f, s, r) then {r.ns} else {}
  {
    assert forall x :: x in init + [r] <==> x in init || x == r;
  }

  lemma PatchStepPending(cfg: Config, f: Faults, init: seq<Ref>, r: Ref, s: Server, p: Patch)
    requires p.server == s.(configMaps := PatchedMaps(cfg, f, init, s))
    requires p.led.pending > 0 <==> exists x :: x in init && Behind(cfg, f, s, x)
    ensures PatchOne(cfg, f, r, p).led.pending > 0 <==> exists x :: x in init + [r] && Behind(cfg, f, s, x)
  {
    PatchSees(cfg, f, init, r, s, p.server);
    var q := PatchOne(cfg, f, r, p).led;
    assert forall x :: x in init + [r] <==> x in init || x == r;
    assert q.pending == p.led.pending + if Behind(cfg, f, p.server, r) then 1 else 0;
    assert forall x :: x in init ==> x in init + [r];
    assert r in init + [r];
  }

  lemma PatchStepListed(cfg: Config, f: Faults, init: seq<Ref>, r: Ref, s: Server, p: Patch)
    requires p.server == s.(configMaps := PatchedMaps(cfg, f, init, s))
    requires forall e :: e in p.led.errs <==> PatchFails(cfg, f, s, e) && e.ref in init
    ensures forall e :: e in PatchOne(cfg, f, r, p).led.errs <==> PatchFails(cfg, f, s, e) && e.ref in init + [r]
  {
    PatchSees(cfg, f, init, r, s, p.server);
    PatchOneErrors(cfg, f, r, p);
    PatchFailureIs(cfg, f, p.server, r);
    forall e ensures PatchFails(cfg, f, p.server, e) && e.ref == r ==> PatchFails(cfg, f, s, e) {}
    forall e ensures PatchFails(cfg, f, s, e) && e.ref == r ==> PatchFails(cfg, f, p.server, e) || r in init {}
    assert forall x :: x in init + [r] <==> x in init || x == r;
  }

  /** The phase reports no failure iff no target is stuck. */
  lemma PatchNilIff(cfg: Config, f: Faults, refs: seq<Ref>, s: Server, p: Patch)
    requires PatchMeans(cfg, f, refs, s, p)
    ensures p.led.errs == [] <==> forall r :: r in refs ==> !Stuck(cfg, f, s, r)
  {
    if p.led.errs != [] {
      assert PatchFails(cfg, f, s, p.led.errs[0]);
    } else {
      forall r | r in refs ensures !Stuck(cfg, f, s, r) {
        assert Failed(GetConfigMap, r) !in p.led.errs && Failed(UpdateConfigMap, r) !in p.led.errs;
      }
    }
  }

  /** What the patch phase reports about one target it finds in the server `s`. */
  function PatchFailure(cfg: Config, f: Faults, s: Server, r: Ref): seq<Failure> {
    if !Readable(f, s, r) then [Failed(GetConfigMap, r)]
    else if !cfg.dryRun && Behind(cfg, f, s, r) && Fate(f, UpdateConfigMap, r) != Served
    then [Failed(UpdateConfigMap, r)] else []
  }

  lemma PatchOneErrors(cfg: Config, f: Faults, r: Ref, p: Patch)
    ensures PatchOne(cfg, f, r, p).led.errs == p.led.errs + PatchFailure(cfg, f, p.server, r)
    ensures PatchOne(cfg, f, r, p).led.pending == p.led.pending + if Behind(cfg, f, p.server, r) then 1 else 0
  {
    assert p.led.errs + [] == p.led.errs;
  }

  lemma PatchFailureIs(cfg: Config, f: Faults, s: Server, r: Ref)
    ensures forall e :: e in PatchFailure(cfg, f, s, r) <==> PatchFails(cfg, f, s, e) && e.ref == r
  {
  }

  /** The failures of all targets against the server before the call, in target order. */
  function PatchFailures(cfg: Config, f: Faults, refs: seq<Ref>, s: Server): seq<Failure> {
    if refs == [] then []
    else PatchFailures(cfg, f, refs[..|refs| - 1], s) + PatchFailure(cfg, f, s, refs[|refs| - 1])
  }

  function BehindIn(cfg: Config, f: Faults, refs: seq<Ref>, s: Server): seq<Ref> {
    if refs == [] then []
    else
      var r := refs[|refs| - 1];
      BehindIn(cfg, f, refs[..|refs| - 1], s) + if Behind(cfg, f, s, r) then [r] else []
  }

  /** Distinct targets: one failure for each stuck one, in order, and `pending` counts those
      found off the secondary. */
  lemma {:induction false} PatchLists(cfg: Config, f: Faults, refs: seq<Ref>, s: Server)
    requires Distinct(refs)
    ensures PatchAll(cfg, f, refs, s).led.errs == PatchFailures(cfg, f, refs, s)
    ensures PatchAll(cfg, f, refs, s).led.pending == |BehindIn(cfg, f, refs, s)|
  {
    if refs != [] {
      var r, init := refs[|refs| - 1], refs[..|refs| - 1];
      PatchLists(cfg, f, init, s);
      PatchMeaning(cfg, f, init, s);
      var p := PatchAll(cfg, f, init, s);
      assert r !in init;
      PatchSees(cfg, f, init, r, s, p.server);
      PatchOneErrors(cfg, f, r, p);
    }
  }

  /** The roll phase touches `d`: its namespace is not stuck, and either a ConfigMap of
      that namespace moved in this call or the template is unstamped. */
  predicate NeedsRoll(cfg: Config, f: Faults, led: Ledger, s: Server, d: Ref) {
    && d.ns !in led.failedNS && d in s.deployments && Fate(f, GetDeployment, d) == Served
    && (d.ns in led.patchedNS || !TemplateStamped(cfg, s.deployments[d].template))
  }

  predicate Rolled(cfg: Config, f: Faults, led: Ledger, s: Server, d: Ref) {
    NeedsRoll(cfg, f, led, s, d) && Fate(f, UpdateDeployment, d) != Refused
  }

  predicate RollServed(cfg: Config, f: Faults, led: Ledger, s: Server, d: Ref) {
    NeedsRoll(cfg, f, led, s, d) && Fate(f, UpdateDeployment, d) == Served
  }

  predicate RollStuck(cfg: Config, f: Faults, led: Ledger, s: Server, d: Ref) {
    && d.ns !in led.failedNS
    && (|| d !in s.deployments || Fate(f, GetDeployment, d) != Served
        || (NeedsRoll(cfg, f, led, s, d) && Fate(f, UpdateDeployment, d) != Served))
  }

  function Restarted(cfg: Config, s: Server, d: Ref, stamp: string): Deployment
    requires d in s.deployments
  {
    var template := Stamp(cfg, s.deployments[d].template, stamp);
    if template == s.deployments[d].template then s.deployments[d]
    else Deployment(template, s.deployments[d].rolls + 1, s.configMaps)
  }

  function RolledDeployments(cfg: Config, f: Faults, led: Ledger, stamp: string, refs: seq<Ref>, s: Server)
    : map<Ref, Deployment>
  {
    map d | d in s.deployments ::
      if d in refs && Rolled(cfg, f, led, s, d) then Restarted(cfg, s, d, stamp) else s.deployments[d]
  }

  /** The failure is what the roll phase has to report about its target. */
  predicate RollFails(cfg: Config, f: Faults, led: Ledger, s: Server, e: Failure) {
    && e.Failed? && e.ref.ns !in led.failedNS
    && (|| (e.verb == GetDeployment && (e.ref !in s.deployments || Fate(f, GetDeployment, e.ref) != Served))
        || (e.verb == UpdateDeployment && NeedsRoll(cfg, f, led, s, e.ref)
            && Fate(f, UpdateDeployment, e.ref) != Served))
  }

  ghost predicate RollMeans(cfg: Config, f: Faults, led: Ledger, stamp: string, refs: seq<Ref>, s: Server, r: Roll) {
    && r.server == s.(deployments := RolledDeployments(cfg, f, led, stamp, refs, s))
    && (r.rolled > 0 <==> exists d :: d in refs && RollServed(cfg, f, led, s, d))
    && (forall e :: e in r.errs <==> RollFails(cfg, f, led, s, e) && e.ref in refs)
  }

  lemma {:induction false} RollMeaning(
    cfg: Config, f: Faults, led: Ledger, stamp: string, refs: seq<Ref>, s: Server)
    ensures RollMeans(cfg, f, led, stamp, refs, s, RollAll(cfg, f, led, stamp, refs, s))
  {
    if refs == [] {
      assert RolledDeployments(cfg, f, led, stamp, refs, s) == s.deployments;
    } else {
      var d, init := refs[|refs| - 1], refs[..|refs| - 1];
      RollMeaning(cfg, f, led, stamp, init, s);
      var r := RollAll(cfg, f, led, stamp, init, s);
      assert refs == init + [d];
      RollStepServer(cfg, f, led, stamp, init, d, s, r);
      RollStepServed(cfg, f, led, stamp, init, d, s, r);
      RollStepListed(cfg, f, led, stamp, init, d, s, r);
    }
  }

  lemma StampTwice(cfg: Config, template: Fields, stamp: string)
    ensures Stamp(cfg, Stamp(cfg, template, stamp), stamp) == Stamp(cfg, template, stamp)
  {
  }

  lemma RollSees(cfg: Config, f: Faults, led: Ledger, stamp: string, init: seq<Ref>, d: Ref, s: Server, t: Server)
    requires t == s.(deployments := RolledDeployments(cfg, f, led, stamp, init, s))
    ensures NeedsRoll(cfg, f, led, t, d)
       <==> NeedsRoll(cfg, f, led, s, d) && (d.ns in led.patchedNS || !(d in init && Rolled(cfg, f, led, s, d)))
    ensures d in init && Rolled(cfg, f, led, s, d) ==> Restarted(cfg, t, d, stamp) == t.deployments[d]
    ensures d in s.deployments && !(d in init && Rolled(cfg, f, led, s, d)) ==>
      Restarted(cfg, t, d, stamp) == Restarted(cfg, s, d, stamp)
  {
    if d in s.deployments {
      StampTwice(cfg, s.deployments[d].template, stamp);
    }
  }

  lemma RollStepServer(cfg: Config, f: Faults, led: Ledger, stamp: string, init: seq<Ref>, d: Ref, s: Server, r: Roll)
    requires r.server == s.(deployments := RolledDeployments(cfg, f, led, stamp, init, s))
    ensures RollOne(cfg, f, led, stamp, d, r).server
         == s.(deployments := RolledDeployments(cfg, f, led, stamp, init + [d], s))
  {
    RollOneEffect(cfg, f, led, stamp, d, r);
    RollSees(cfg, f, led, stamp, init, d, s, r.server);
    var next := RollOne(cfg, f, led, stamp, d, r).server.deployments;
    var want := RolledDeployments(cfg, f, led, stamp, init + [d], s);
    assert next.Keys == want.Keys;
    forall x | x in want ensures next[x] == want[x] {
      assert x in init + [d] <==> x in init || x == d;
    }
    assert next == want;
  }

  lemma RollOneEffect(cfg: Config, f: Faults, led: Ledger, stamp: string, d: Ref, r: Roll)
    ensures var t := RollOne(cfg, f, led, stamp, d, r).server;
      && t.configMaps == r.server.configMaps
      && t.deployments == if Rolled(cfg, f, led, r.server, d)
                          then r.server.deployments[d := Restarted(cfg, r.server, d, stamp)]
                          else r.server.deployments
  {
  }

  /** The phase reports no failure iff no target is stuck. */
  lemma RollNilIff(cfg: Config, f: Faults, led: Ledger, stamp: string, refs: seq<Ref>, s: Server, r: Roll)
    requires RollMeans(cfg, f, led, stamp, refs, s, r)
    ensures r.errs == [] <==> forall d :: d in refs ==> !RollStuck(cfg, f, led, s, d)
  {
    if r.errs != [] {
      assert RollFails(cfg, f, led, s, r.errs[0]);
    } else {
      forall d | d in refs ensures !RollStuck(cfg, f, led, s, d) {
        assert Failed(GetDeployment, d) !in r.errs && Failed(UpdateDeployment, d) !in r.errs;
      }
    }
  }

  lemma RollStepServed(cfg: Config, f: Faults, led: Ledger, stamp: string, init: seq<Ref>, d: Ref, s: Server, r: Roll)
    requires r.server == s.(deployments := RolledDeployments(cfg, f, led, stamp, init, s))
    requires r.rolled > 0 <==> exists x :: x in init && RollServed(cfg, f, led, s, x)
    ensures RollOne(cfg, f, led, stamp, d, r).rolled > 0
       <==> exists x :: x in init + [d] && RollServed(cfg, f, led, s, x)
  {
    RollSees(cfg, f, led, stamp, init, d, s, r.server);
    assert RollOne(cfg, f, led, stamp, d, r).rolled > 0 <==> r.rolled > 0 || RollServed(cfg, f, led, r.server, d);
    assert RollServed(cfg, f, led, s, d) ==> RollServed(cfg, f, led, r.server, d) || d in init;
    if exists x :: x in init + [d] && RollServed(cfg, f, led, s, x) {
      var x :| x in init + [d] && RollServed(cfg, f, led, s, x);
      assert x in init || x == d;
    }
    assert forall x :: x in init ==> x in init + [d];
    assert d in init + [d];
  }

  lemma RollStepListed(cfg: Config, f: Faults, led: Ledger, stamp: string, init: seq<Ref>, d: Ref, s: Server, r: Roll)
    requires r.server == s.(deployments := RolledDeployments(cfg, f, led, stamp, init, s))
    requires forall e :: e in r.errs <==> RollFails(cfg, f, led, s, e) && e.ref in init
    ensures forall e ::
      e in RollOne(cfg, f, led, stamp, d, r).errs <==> RollFails(cfg, f, led, s, e) && e.ref in init + [d]
  {
    RollSees(cfg, f, led, stamp, init, d, s, r.server);
    RollOneErrors(cfg, f, led, stamp, d, r);
    RollFailureIs(cfg, f, led, r.server, d);
    forall e ensures RollFails(cfg, f, led, r.server, e) && e.ref == d ==> RollFails(cfg, f, led, s, e) {}
    forall e ensures RollFails(cfg, f, led, s, e) && e.ref == d ==> RollFails(cfg, f, led, r.server, e) || d in init {}
    assert forall x :: x in init + [d] <==> x in init || x == d;
  }

  /** What the roll phase reports about one target it finds in the server `s`. */
  function RollFailure(cfg: Config, f: Faults, led: Ledger, s: Server, d: Ref): seq<Failure> {
    if d.ns in led.failedNS then []
    else if d !in s.deployments || Fate(f, GetDeployment, d) != Served then [Failed(GetDeployment, d)]
    else if NeedsRoll(cfg, f, led, s, d) && Fate(f, UpdateDeployment, d) != Served then [Failed(UpdateDeployment, d)]
    else []
  }

  lemma RollOneErrors(cfg: Config, f: Faults, led: Ledger, stamp: string, d: Ref, r: Roll)
    ensures RollOne(cfg, f, led, stamp, d, r).errs == r.errs + RollFailure(cfg, f, led, r.server, d)
    ensures RollOne(cfg, f, led, stamp, d, r).rolled
         == r.rolled + if RollServed(cfg, f, led, r.server, d) then 1 else 0
  {
    assert r.errs + [] == r.errs;
  }

  lemma RollFailureIs(cfg: Config, f: Faults, led: Ledger, s: Server, d: Ref)
    ensures forall e :: e in RollFailure(cfg, f, led, s, d) <==> RollFails(cfg, f, led, s, e) && e.ref == d
  {
  }

  function RollFailures(cfg: Config, f: Faults, led: Ledger, refs: seq<Ref>, s: Server): seq<Failure> {
    if refs == [] then []
    else RollFailures(cfg, f, led, refs[..|refs| - 1], s) + RollFailure(cfg, f, led, s, refs[|refs| - 1])
  }

  function ServedIn(cfg: Config, f: Faults, led: Ledger, refs: seq<Ref>, s: Server): seq<Ref> {
    if refs == [] then []
    else
      var d := refs[|refs| - 1];
      ServedIn(cfg, f, led, refs[..|refs| - 1], s) + if RollServed(cfg, f, led, s, d) then [d] else []
  }

  /** Distinct targets: one failure for each target that could not be read or rolled, in
      order, and `rolled` counts the acknowledged updates. */
  lemma {:induction false} RollLists(cfg: Config, f: Faults, led: Ledger, stamp: string, refs: seq<Ref>, s: Server)
    requires Distinct(refs)
    ensures RollAll(cfg, f, led, stamp, refs, s).errs == RollFailures(cfg, f, led, refs, s)
    ensures RollAll(cfg, f, led, stamp, refs, s).rolled == |ServedIn(cfg, f, led, refs, s)|
  {
    if refs != [] {
      var d, init := refs[|refs| - 1], refs[..|refs| - 1];
      RollLists(cfg, f, led, stamp, init, s);
      RollMeaning(cfg, f, led, stamp, init, s);
      var r := RollAll(cfg, f, led, stamp, init, s);
      assert d !in init;
      RollSees(cfg, f, led, stamp, init, d, s, r.server);
      RollOneErrors(cfg, f, led, stamp, d, r);
    }
  }
}

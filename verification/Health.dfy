/** The detector: endpoint probes rolled up into per-service health and a global verdict. */
module Health {
  import opened Ordering
  import opened StateMachine

  datatype Probe = Probe(service: string, host: string, ok: bool)

  /** `service` is Up or Down, never Degraded. */
  datatype ServiceHealth = ServiceHealth(status: Status, reachable: nat, unreachable: seq<string>)

  datatype Reason =
    | AllReachable
    | NotObserved(service: string)
    | CriticalDown(service: string, bad: nat, total: nat)
    | NonCriticalDown(service: string, bad: nat, total: nat)

  datatype Report = Report(
    status: Status, critical: seq<string>, services: map<string, ServiceHealth>, reason: Reason, checkedAt: string)

  // ----- the declarative reading -----

  /** A probe without a host stands for a service no node runs. */
  predicate Placeholder(p: Probe) {
    p.host == ""
  }

  function Services(ps: seq<Probe>): set<string> {
    set p | p in ps && !Placeholder(p) :: p.service
  }

  predicate Failing(ps: seq<Probe>, service: string) {
    exists p :: p in ps && !Placeholder(p) && p.service == service && !p.ok
  }

  /** Hosts whose endpoint for the service answered as `ok` says, in probe order. */
  function Hosts(ps: seq<Probe>, service: string, ok: bool): seq<string> {
    if ps == [] then []
    else
      var p := ps[|ps| - 1];
      Hosts(ps[..|ps| - 1], service, ok)
      + if !Placeholder(p) && p.service == service && p.ok == ok then [p.host] else []
  }

  predicate CriticalBad(ps: seq<Probe>, service: string) {
    service !in Services(ps) || Failing(ps, service)
  }

  function NonCriticalBad(ps: seq<Probe>, critical: seq<string>): set<string> {
    set s | s in Services(ps) && s !in critical && Failing(ps, s)
  }

  /** DOWN iff some critical service is unobserved or has a failing endpoint; otherwise
      DEGRADED iff some other service has one; otherwise UP. */
  function GlobalStatus(ps: seq<Probe>, critical: seq<string>): Status {
    if exists c :: c in critical && CriticalBad(ps, c) then Down
    else if NonCriticalBad(ps, critical) != {} then Degraded
    else Up
  }

  function HealthOf(ps: seq<Probe>, service: string): ServiceHealth {
    ServiceHealth(if Failing(ps, service) then Down else Up,
                  |Hosts(ps, service, true)|, Sort(Hosts(ps, service, false)))
  }

  function ServiceMap(ps: seq<Probe>): map<string, ServiceHealth> {
    map s | s in Services(ps) :: HealthOf(ps, s)
  }

  /** The first bad critical service in the configured order, if any. */
  function FirstBad(ps: seq<Probe>, critical: seq<string>): (i: nat)
    ensures i <= |critical|
    ensures forall k :: 0 <= k < i ==> !CriticalBad(ps, critical[k])
    ensures i < |critical| ==> CriticalBad(ps, critical[i])
  {
    if critical == [] then 0
    else if CriticalBad(ps, critical[0]) then 0
    else 1 + FirstBad(ps, critical[1..])
  }

  function Bad(ps: seq<Probe>, service: string): nat {
    |Hosts(ps, service, false)|
  }

  function Total(ps: seq<Probe>, service: string): nat {
    |Hosts(ps, service, true)| + |Hosts(ps, service, false)|
  }

  ghost function Explanation(ps: seq<Probe>, critical: seq<string>): Reason {
    var i := FirstBad(ps, critical);
    if i < |critical| then
      var c := critical[i];
      if c !in Services(ps) then NotObserved(c) else CriticalDown(c, Bad(ps, c), Total(ps, c))
    else if NonCriticalBad(ps, critical) != {} then
      var s := Least(NonCriticalBad(ps, critical));
      NonCriticalDown(s, Bad(ps, s), Total(ps, s))
    else AllReachable
  }

  ghost function ReportOf(ps: seq<Probe>, critical: seq<string>, checkedAt: string): Report {
    Report(GlobalStatus(ps, critical), critical, ServiceMap(ps), Explanation(ps, critical), checkedAt)
  }

  // ----- the computation -----

  datatype Agg = Agg(reachable: nat, unreachable: seq<string>)

  lemma {:induction false} FailingHosts(ps: seq<Probe>, service: string)
    ensures Failing(ps, service) <==> Hosts(ps, service, false) != []
  {
    if ps != [] {
      var init, p := ps[..|ps| - 1], ps[|ps| - 1];
      FailingHosts(init, service);
      assert ps == init + [p];
    }
  }

  lemma ServicesGrow(ps: seq<Probe>, p: Probe)
    ensures Services(ps + [p]) == Services(ps) + if Placeholder(p) then {} else {p.service}
  {
    assert forall q :: q in ps + [p] <==> q in ps || q == p;
    if !Placeholder(p) {
      assert p in ps + [p];
    }
  }

  lemma {:induction false} ObservedOrNothing(ps: seq<Probe>, service: string)
    ensures service !in Services(ps) ==> Hosts(ps, service, true) == [] && Hosts(ps, service, false) == []
    ensures service in Services(ps) ==> Total(ps, service) > 0
  {
    if ps != [] {
      var init, p := ps[..|ps| - 1], ps[|ps| - 1];
      ObservedOrNothing(init, service);
      assert ps == init + [p];
      ServicesGrow(init, p);
    }
  }

  predicate Aggregates(byService: map<string, Agg>, ps: seq<Probe>) {
    && byService.Keys == Services(ps)
    && forall s :: s in byService ==> byService[s] == Agg(|Hosts(ps, s, true)|, Hosts(ps, s, false))
  }

  function Tally(a: Agg, p: Probe): Agg {
    if p.ok then a.(reachable := a.reachable + 1) else a.(unreachable := a.unreachable + [p.host])
  }

  lemma HostsStep(ps: seq<Probe>, p: Probe, service: string, ok: bool)
    ensures Hosts(ps + [p], service, ok)
         == Hosts(ps, service, ok) + if !Placeholder(p) && p.service == service && p.ok == ok then [p.host] else []
  {
    assert (ps + [p])[..|ps|] == ps;
  }

  lemma TallyStep(byService: map<string, Agg>, ps: seq<Probe>, p: Probe)
    requires Aggregates(byService, ps) && !Placeholder(p)
    ensures var a := if p.service in byService then byService[p.service] else Agg(0, []);
      Aggregates(byService[p.service := Tally(a, p)], ps + [p])
  {
    ServicesGrow(ps, p);
    ObservedOrNothing(ps, p.service);
    forall s, ok
      ensures Hosts(ps + [p], s, ok)
           == Hosts(ps, s, ok) + if !Placeholder(p) && p.service == s && p.ok == ok then [p.host] else []
    {
      HostsStep(ps, p, s, ok);
    }
  }

  lemma SkipStep(byService: map<string, Agg>, ps: seq<Probe>, p: Probe)
    requires Aggregates(byService, ps) && Placeholder(p)
    ensures Aggregates(byService, ps + [p])
  {
    ServicesGrow(ps, p);
    forall s, ok
      ensures Hosts(ps + [p], s, ok)
           == Hosts(ps, s, ok) + if !Placeholder(p) && p.service == s && p.ok == ok then [p.host] else []
    {
      HostsStep(ps, p, s, ok);
    }
  }

  method Aggregate(probes: seq<Probe>) returns (byService: map<string, Agg>)
    ensures Aggregates(byService, probes)
  {
    byService := map[];
    for i := 0 to |probes|
      invariant Aggregates(byService, probes[..i])
    {
      var pr := probes[i];
      assert probes[..i + 1] == probes[..i] + [pr];
      if pr.host == "" {
        SkipStep(byService, probes[..i], pr);
        continue;
      }
      TallyStep(byService, probes[..i], pr);
      var a := if pr.service in byService then byService[pr.service] else Agg(0, []);
      if pr.ok {
        a := a.(reachable := a.reachable + 1);
      } else {
        a := a.(unreachable := a.unreachable + [pr.host]);
      }
      byService := byService[pr.service := a];
    }
    assert probes[..|probes|] == probes;
  }

  function FromAgg(a: Agg): ServiceHealth {
    ServiceHealth(if |a.unreachable| > 0 || a.reachable == 0 then Down else Up, a.reachable, Sort(a.unreachable))
  }

  lemma HealthFromAgg(ps: seq<Probe>, service: string)
    requires service in Services(ps)
    ensures FromAgg(Agg(|Hosts(ps, service, true)|, Hosts(ps, service, false))) == HealthOf(ps, service)
  {
    FailingHosts(ps, service);
    ObservedOrNothing(ps, service);
  }

  /** The second loop, which ranges over the map in an unknown order. */
  method RollUp(byService: map<string, Agg>) returns (services: map<string, ServiceHealth>)
    ensures services == map s | s in byService :: FromAgg(byService[s])
  {
    services := map[];
    var left := byService.Keys;
    while left != {}
      invariant left <= byService.Keys && services.Keys == byService.Keys - left
      invariant forall s :: s in services ==> services[s] == FromAgg(byService[s])
      decreases left
    {
      var svc :| svc in left;
      left := left - {svc};
      var a := byService[svc];
      var status := Up;
      if |a.unreachable| > 0 || a.reachable == 0 {
        status := Down;
      }
      services := services[svc := ServiceHealth(status, a.reachable, Sort(a.unreachable))];
    }
  }

  lemma RollUpIsServiceMap(byService: map<string, Agg>, ps: seq<Probe>)
    requires Aggregates(byService, ps)
    ensures (map s | s in byService :: FromAgg(byService[s])) == ServiceMap(ps)
  {
    forall s | s in byService ensures FromAgg(byService[s]) == HealthOf(ps, s) {
      HealthFromAgg(ps, s);
    }
  }

  lemma FirstBadIs(ps: seq<Probe>, critical: seq<string>, i: nat)
    requires i <= |critical| && (forall k :: 0 <= k < i ==> !CriticalBad(ps, critical[k]))
    requires i < |critical| ==> CriticalBad(ps, critical[i])
    ensures FirstBad(ps, critical) == i
  {
  }

  /** The first bad name among the sorted names of all services is the least bad name. */
  lemma FirstInSorted(names: seq<string>, bad: set<string>, i: nat)
    requires Sorted(names) && (forall x :: x in bad ==> x in names)
    requires i < |names| && names[i] in bad && forall k :: 0 <= k < i ==> names[k] !in bad
    ensures bad != {} && Least(bad) == names[i]
  {
    forall y | y in bad ensures Le(names[i], y) {
      var j :| 0 <= j < |names| && names[j] == y;
      LeTotal(y, y);
    }
    LeastIs(bad, names[i]);
  }

  predicate BadIn(services: map<string, ServiceHealth>, name: string) {
    name !in services || services[name].status == Down
  }

  function Blame(services: map<string, ServiceHealth>, name: string): Reason {
    if name !in services then NotObserved(name)
    else CriticalDown(name, |services[name].unreachable|, services[name].reachable + |services[name].unreachable|)
  }

  /** The loop over the critical services, in the configured order: `at` is where it broke
      off. */
  method ScanCritical(services: map<string, ServiceHealth>, critical: seq<string>)
    returns (global: Status, reason: Reason, ghost at: nat)
    ensures at <= |critical| && forall k :: 0 <= k < at ==> !BadIn(services, critical[k])
    ensures at < |critical| ==> BadIn(services, critical[at])
    ensures at < |critical| ==> global == Down && reason == Blame(services, critical[at])
    ensures at == |critical| ==> global == Up && reason == AllReachable
  {
    for i := 0 to |critical|
      invariant forall k :: 0 <= k < i ==> !BadIn(services, critical[k])
    {
      var svc := critical[i];
      if svc !in services {
        return Down, NotObserved(svc), i;
      }
      var sh := services[svc];
      if sh.status == Down {
        return Down, CriticalDown(svc, |sh.unreachable|, sh.reachable + |sh.unreachable|), i;
      }
    }
    return Up, AllReachable, |critical|;
  }

  lemma BadInIsCriticalBad(ps: seq<Probe>, service: string)
    ensures BadIn(ServiceMap(ps), service) <==> CriticalBad(ps, service)
    ensures Blame(ServiceMap(ps), service)
         == if service !in Services(ps) then NotObserved(service)
            else CriticalDown(service, Bad(ps, service), Total(ps, service))
  {
    if service in Services(ps) {
      assert ServiceMap(ps)[service] == HealthOf(ps, service);
    }
  }

  lemma CriticalIs(ps: seq<Probe>, critical: seq<string>, at: nat)
    requires at <= |critical| && forall k :: 0 <= k < at ==> !BadIn(ServiceMap(ps), critical[k])
    requires at < |critical| ==> BadIn(ServiceMap(ps), critical[at])
    ensures FirstBad(ps, critical) == at
    ensures at < |critical| ==> Explanation(ps, critical) == Blame(ServiceMap(ps), critical[at])
  {
    forall k | 0 <= k < |critical|
      ensures BadIn(ServiceMap(ps), critical[k]) <==> CriticalBad(ps, critical[k])
    {
      BadInIsCriticalBad(ps, critical[k]);
    }
    FirstBadIs(ps, critical, at);
    if at < |critical| {
      BadInIsCriticalBad(ps, critical[at]);
    }
  }

  method CriticalVerdict(ghost probes: seq<Probe>, services: map<string, ServiceHealth>, critical: seq<string>)
    returns (global: Status, reason: Reason)
    requires services == ServiceMap(probes)
    ensures FirstBad(probes, critical) == |critical| ==> global == Up && reason == AllReachable
    ensures FirstBad(probes, critical) < |critical| ==>
      global == Down && reason == Explanation(probes, critical)
  {
    ghost var at;
    global, reason, at := ScanCritical(services, critical);
    CriticalIs(probes, critical, at);
  }

  predicate DownBeside(services: map<string, ServiceHealth>, critical: seq<string>, name: string)
    requires name in services
  {
    name !in critical && services[name].status == Down
  }

  function Beside(name: string, sh: ServiceHealth): Reason {
    NonCriticalDown(name, |sh.unreachable|, sh.reachable + |sh.unreachable|)
  }

  /** The loop over the sorted service names, reached when nothing critical is bad: `at` is
      where it broke off. */
  method ScanNames(names: seq<string>, services: map<string, ServiceHealth>, critical: seq<string>)
    returns (global: Status, reason: Reason, ghost at: nat)
    requires forall k :: 0 <= k < |names| ==> names[k] in services
    ensures at <= |names| && forall k :: 0 <= k < at ==> !DownBeside(services, critical, names[k])
    ensures at < |names| ==> DownBeside(services, critical, names[at])
    ensures at < |names| ==> global == Degraded && reason == Beside(names[at], services[names[at]])
    ensures at == |names| ==> global == Up && reason == AllReachable
  {
    for j := 0 to |names|
      invariant forall k :: 0 <= k < j ==> !DownBeside(services, critical, names[k])
    {
      var name := names[j];
      if name !in critical && services[name].status == Down {
        var sh := services[name];
        return Degraded, NonCriticalDown(name, |sh.unreachable|, sh.reachable + |sh.unreachable|), j;
      }
    }
    return Up, AllReachable, |names|;
  }

  lemma DownBesideIsBad(ps: seq<Probe>, critical: seq<string>, s: string)
    requires s in Services(ps)
    ensures DownBeside(ServiceMap(ps), critical, s) <==> s in NonCriticalBad(ps, critical)
  {
    assert ServiceMap(ps)[s] == HealthOf(ps, s);
  }

  lemma NoneBeside(ps: seq<Probe>, critical: seq<string>, names: seq<string>)
    requires forall s :: s in Services(ps) ==> s in names
    requires forall k :: 0 <= k < |names| ==>
      names[k] in Services(ps) && !DownBeside(ServiceMap(ps), critical, names[k])
    ensures NonCriticalBad(ps, critical) == {}
  {
    forall s ensures s !in NonCriticalBad(ps, critical) {
      if s in Services(ps) {
        DownBesideIsBad(ps, critical, s);
      }
    }
  }

  lemma SomeBeside(ps: seq<Probe>, critical: seq<string>, at: nat)
    requires at < |Listing(Services(ps))|
    requires forall k :: 0 <= k < |Listing(Services(ps))| ==> Listing(Services(ps))[k] in Services(ps)
    requires forall k :: 0 <= k < at ==> !DownBeside(ServiceMap(ps), critical, Listing(Services(ps))[k])
    requires DownBeside(ServiceMap(ps), critical, Listing(Services(ps))[at])
    ensures NonCriticalBad(ps, critical) != {} && Least(NonCriticalBad(ps, critical)) == Listing(Services(ps))[at]
  {
    forall k | 0 <= k <= at ensures Listing(Services(ps))[k] in NonCriticalBad(ps, critical) <==> k == at {
      DownBesideIsBad(ps, critical, Listing(Services(ps))[k]);
    }
    FirstInSorted(Listing(Services(ps)), NonCriticalBad(ps, critical), at);
  }

  lemma StatusFromFirstBad(ps: seq<Probe>, critical: seq<string>)
    ensures GlobalStatus(ps, critical)
         == if FirstBad(ps, critical) < |critical| then Down
            else if NonCriticalBad(ps, critical) != {} then Degraded else Up
  {
    var i := FirstBad(ps, critical);
    if i < |critical| {
      assert critical[i] in critical;
    } else {
      forall c | c in critical ensures !CriticalBad(ps, c) {
        var k :| 0 <= k < |critical| && critical[k] == c;
      }
    }
  }

  lemma ExplanationBeside(ps: seq<Probe>, critical: seq<string>)
    requires FirstBad(ps, critical) == |critical|
    ensures NonCriticalBad(ps, critical) == {} ==> Explanation(ps, critical) == AllReachable
    ensures NonCriticalBad(ps, critical) != {} ==>
      var s := Least(NonCriticalBad(ps, critical));
      Explanation(ps, critical) == Beside(s, HealthOf(ps, s))
  {
  }

  lemma NonCriticalIs(ps: seq<Probe>, critical: seq<string>, at: nat)
    requires FirstBad(ps, critical) == |critical|
    requires var names := Listing(ServiceMap(ps).Keys);
      && at <= |names| && (forall k :: 0 <= k < |names| ==> names[k] in ServiceMap(ps))
      && (forall k :: 0 <= k < at ==> !DownBeside(ServiceMap(ps), critical, names[k]))
      && (at < |names| ==> DownBeside(ServiceMap(ps), critical, names[at]))
    ensures var names := Listing(ServiceMap(ps).Keys);
      && (at < |names| ==> NonCriticalBad(ps, critical) != {}
                           && Explanation(ps, critical) == Beside(names[at], ServiceMap(ps)[names[at]]))
      && (at == |names| ==> NonCriticalBad(ps, critical) == {} && Explanation(ps, critical) == AllReachable)
  {
    assert ServiceMap(ps).Keys == Services(ps);
    ExplanationBeside(ps, critical);
    if at < |Listing(Services(ps))| {
      SomeBeside(ps, critical, at);
    } else {
      NoneBeside(ps, critical, Listing(Services(ps)));
    }
  }

  /** The rest of Compute once every critical service is up. */
  method NonCriticalVerdict(ghost probes: seq<Probe>, services: map<string, ServiceHealth>, critical: seq<string>)
    returns (global: Status, reason: Reason)
    requires services == ServiceMap(probes) && FirstBad(probes, critical) == |critical|
    ensures global == if NonCriticalBad(probes, critical) != {} then Degraded else Up
    ensures reason == Explanation(probes, critical)
  {
    var names := SortedKeys(services.Keys);
    ListingIn(services.Keys);
    ghost var at;
    global, reason, at := ScanNames(names, services, critical);
    NonCriticalIs(probes, critical, at);
  }

  method Compute(probes: seq<Probe>, critical: seq<string>, checkedAt: string) returns (rep: Report)
    ensures rep == ReportOf(probes, critical, checkedAt)
  {
    var byService := Aggregate(probes);
    var services := RollUp(byService);
    RollUpIsServiceMap(byService, probes);
    var global, reason := CriticalVerdict(probes, services, critical);
    StatusFromFirstBad(probes, critical);
    if global == Up {
      global, reason := NonCriticalVerdict(probes, services, critical);
    }
    rep := Report(global, critical, services, reason, checkedAt);
  }
}

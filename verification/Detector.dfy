/** Laws of the detector: probe order is irrelevant, the two views agree, and the verdict
    moves the right way. */
module Detector {
  import opened Ordering
  import opened StateMachine
  import opened Health
  import opened Nodes

  // ----- probe order -----

  /** Each view lists an endpoint as often as the round holds it. */
  lemma {:induction false} HostsCount(ps: seq<Probe>, service: string, ok: bool, host: string)
    ensures multiset(Hosts(ps, service, ok))[host] == if host == "" then 0 else multiset(ps)[Probe(service, host, ok)]
  {
    if ps != [] {
      var init, p := ps[..|ps| - 1], ps[|ps| - 1];
      HostsCount(init, service, ok, host);
      assert ps == init + [p];
      HostsStep(init, p, service, ok);
    }
  }

  lemma {:induction false} ServicesCount(ps: seq<Probe>, host: string, ok: bool, service: string)
    requires host != ""
    ensures multiset(ServicesAt(ps, host, ok))[service] == multiset(ps)[Probe(service, host, ok)]
  {
    if ps != [] {
      var init, p := ps[..|ps| - 1], ps[|ps| - 1];
      ServicesCount(init, host, ok, service);
      assert ps == init + [p];
      ServicesStep(init, p, host, ok);
    }
  }

  lemma SameHosts(ps: seq<Probe>, qs: seq<Probe>, service: string, ok: bool)
    requires multiset(ps) == multiset(qs)
    ensures multiset(Hosts(ps, service, ok)) == multiset(Hosts(qs, service, ok))
    ensures |Hosts(ps, service, ok)| == |Hosts(qs, service, ok)|
  {
    var a, b := Hosts(ps, service, ok), Hosts(qs, service, ok);
    forall h ensures multiset(a)[h] == multiset(b)[h] {
      HostsCount(ps, service, ok, h);
      HostsCount(qs, service, ok, h);
    }
    assert multiset(a) == multiset(b);
    assert |multiset(a)| == |a| && |multiset(b)| == |b|;
  }

  lemma SameServices(ps: seq<Probe>, qs: seq<Probe>, host: string, ok: bool)
    requires multiset(ps) == multiset(qs) && host != ""
    ensures multiset(ServicesAt(ps, host, ok)) == multiset(ServicesAt(qs, host, ok))
  {
    forall s ensures multiset(ServicesAt(ps, host, ok))[s] == multiset(ServicesAt(qs, host, ok))[s] {
      ServicesCount(ps, host, ok, s);
      ServicesCount(qs, host, ok, s);
    }
  }

  lemma SameMembers(ps: seq<Probe>, qs: seq<Probe>)
    requires multiset(ps) == multiset(qs)
    ensures forall p :: p in ps <==> p in qs
  {
    assert forall p :: p in ps <==> p in multiset(ps);
    assert forall p :: p in qs <==> p in multiset(qs);
  }

  lemma {:induction false} SameFirstBad(ps: seq<Probe>, qs: seq<Probe>, critical: seq<string>)
    requires forall s :: CriticalBad(ps, s) == CriticalBad(qs, s)
    ensures FirstBad(ps, critical) == FirstBad(qs, critical)
  {
    if critical != [] {
      SameFirstBad(ps, qs, critical[1..]);
    }
  }

  lemma SameJudged(ps: seq<Probe>, qs: seq<Probe>, critical: seq<string>)
    requires multiset(ps) == multiset(qs)
    ensures Services(ps) == Services(qs) && NonCriticalBad(ps, critical) == NonCriticalBad(qs, critical)
    ensures forall s :: CriticalBad(ps, s) == CriticalBad(qs, s)
    ensures forall s :: Failing(ps, s) == Failing(qs, s)
  {
    SameMembers(ps, qs);
    assert Services(ps) == Services(qs);
    forall s ensures Failing(ps, s) == Failing(qs, s) {}
  }

  lemma SameHealth(ps: seq<Probe>, qs: seq<Probe>, service: string)
    requires multiset(ps) == multiset(qs)
    ensures HealthOf(ps, service) == HealthOf(qs, service)
    ensures Bad(ps, service) == Bad(qs, service) && Total(ps, service) == Total(qs, service)
  {
    SameJudged(ps, qs, []);
    SameHosts(ps, qs, service, true);
    SameHosts(ps, qs, service, false);
    SortCanonical(Hosts(ps, service, false), Hosts(qs, service, false));
  }

  lemma SameServiceMap(ps: seq<Probe>, qs: seq<Probe>)
    requires multiset(ps) == multiset(qs)
    ensures ServiceMap(ps) == ServiceMap(qs)
  {
    SameJudged(ps, qs, []);
    forall s ensures HealthOf(ps, s) == HealthOf(qs, s) {
      SameHealth(ps, qs, s);
    }
  }

  lemma SameExplanation(ps: seq<Probe>, qs: seq<Probe>, critical: seq<string>)
    requires multiset(ps) == multiset(qs)
    ensures Explanation(ps, critical) == Explanation(qs, critical)
  {
    SameJudged(ps, qs, critical);
    SameFirstBad(ps, qs, critical);
    forall s ensures Bad(ps, s) == Bad(qs, s) && Total(ps, s) == Total(qs, s) {
      SameHealth(ps, qs, s);
    }
  }

  /** Go hands the probes over in map order: no order changes anything in the report,
      sorted host lists and chosen reason included. */
  lemma ReportOrderFree(ps: seq<Probe>, qs: seq<Probe>, critical: seq<string>, at: string)
    requires multiset(ps) == multiset(qs)
    ensures ReportOf(ps, critical, at) == ReportOf(qs, critical, at)
  {
    SameJudged(ps, qs, critical);
    SameServiceMap(ps, qs);
    SameExplanation(ps, qs, critical);
  }

  lemma {:induction false} NodesOrderFree(ps: seq<Probe>, qs: seq<Probe>)
    requires multiset(ps) == multiset(qs)
    ensures NodesOf(ps) == NodesOf(qs)
  {
    SameMembers(ps, qs);
    assert HostsOf(ps) == HostsOf(qs);
    ListingIn(HostsOf(ps));
    var hosts := Listing(HostsOf(ps));
    forall i | 0 <= i < |hosts| ensures NodeOf(ps, hosts[i]) == NodeOf(qs, hosts[i]) {
      SameServices(ps, qs, hosts[i], true);
      SameServices(ps, qs, hosts[i], false);
      SortCanonical(ServicesAt(ps, hosts[i], true), ServicesAt(qs, hosts[i], true));
      SortCanonical(ServicesAt(ps, hosts[i], false), ServicesAt(qs, hosts[i], false));
    }
    assert NodesAt(ps, hosts) == NodesAt(qs, hosts);
  }

  // ----- the two views -----

  /** A failing endpoint appears in the service rollup as often as in the node pivot. */
  lemma FailuresMatch(ps: seq<Probe>, critical: seq<string>, at: string, service: string, i: nat)
    requires service in Services(ps) && i < |NodesOf(ps)|
    ensures var node := NodesOf(ps)[i];
      multiset(ReportOf(ps, critical, at).services[service].unreachable)[node.host]
      == multiset(node.unreachable)[service]
  {
    var host := Listing(HostsOf(ps))[i];
    ListingIn(HostsOf(ps));
    HostsCount(ps, service, false, host);
    ServicesCount(ps, host, false, service);
  }

  /** How many probes are not placeholders. */
  function Endpoints(ps: seq<Probe>): nat {
    if ps == [] then 0
    else Endpoints(ps[..|ps| - 1]) + if Placeholder(ps[|ps| - 1]) then 0 else 1
  }

  function SumOver(keys: seq<string>, size: string -> nat): nat {
    if keys == [] then 0 else SumOver(keys[..|keys| - 1], size) + size(keys[|keys| - 1])
  }

  lemma {:induction false} SumSame(keys: seq<string>, f: string -> nat, g: string -> nat)
    requires forall k :: k in keys ==> f(k) == g(k)
    ensures SumOver(keys, f) == SumOver(keys, g)
  {
    if keys != [] {
      SumSame(keys[..|keys| - 1], f, g);
    }
  }

  lemma {:induction false} SumZero(keys: seq<string>, f: string -> nat)
    requires forall k :: f(k) == 0
    ensures SumOver(keys, f) == 0
  {
    if keys != [] {
      SumZero(keys[..|keys| - 1], f);
    }
  }

  lemma {:induction false} SumBump(keys: seq<string>, f: string -> nat, g: string -> nat, x: string)
    requires Distinct(keys) && x in keys
    requires g(x) == f(x) + 1 && forall k :: k != x ==> f(k) == g(k)
    ensures SumOver(keys, g) == SumOver(keys, f) + 1
  {
    var init, last := keys[..|keys| - 1], keys[|keys| - 1];
    if last == x {
      SumSame(init, f, g);
    } else {
      assert keys == init + [last];
      SumBump(init, f, g, x);
    }
  }

  function AtNode(ps: seq<Probe>, host: string): nat {
    |ServicesAt(ps, host, true)| + |ServicesAt(ps, host, false)|
  }

  lemma {:induction false} ServiceTotals(ps: seq<Probe>, keys: seq<string>)
    requires Distinct(keys) && forall s :: s in Services(ps) ==> s in keys
    ensures SumOver(keys, s => Total(ps, s)) == Endpoints(ps)
  {
    if ps == [] {
      SumZero(keys, s => Total(ps, s));
    } else {
      var init, p := ps[..|ps| - 1], ps[|ps| - 1];
      assert ps == init + [p];
      ServicesGrow(init, p);
      ServiceTotals(init, keys);
      if Placeholder(p) {
        SumSame(keys, s => Total(init, s), s => Total(ps, s));
      } else {
        SumBump(keys, s => Total(init, s), s => Total(ps, s), p.service);
      }
    }
  }

  lemma {:induction false} NodeTotals(ps: seq<Probe>, keys: seq<string>)
    requires Distinct(keys) && forall h :: h in HostsOf(ps) ==> h in keys
    ensures SumOver(keys, h => AtNode(ps, h)) == Endpoints(ps)
  {
    if ps == [] {
      SumZero(keys, h => AtNode(ps, h));
    } else {
      var init, p := ps[..|ps| - 1], ps[|ps| - 1];
      assert ps == init + [p];
      HostsGrow(init, p);
      NodeTotals(init, keys);
      if Placeholder(p) {
        SumSame(keys, h => AtNode(init, h), h => AtNode(ps, h));
      } else {
        SumBump(keys, h => AtNode(init, h), h => AtNode(ps, h), p.host);
      }
    }
  }

  function InReport(services: map<string, ServiceHealth>, s: string): nat {
    if s in services then services[s].reachable + |services[s].unreachable| else 0
  }

  function InNodes(nodes: seq<NodeHealth>): nat {
    if nodes == [] then 0
    else
      var n := nodes[|nodes| - 1];
      InNodes(nodes[..|nodes| - 1]) + |n.reachable| + |n.unreachable|
  }

  lemma {:induction false} InNodesIs(ps: seq<Probe>, hosts: seq<string>)
    ensures InNodes(NodesAt(ps, hosts)) == SumOver(hosts, h => AtNode(ps, h))
  {
    if hosts != [] {
      InNodesIs(ps, hosts[..|hosts| - 1]);
      assert NodesAt(ps, hosts)[..|hosts| - 1] == NodesAt(ps, hosts[..|hosts| - 1]);
    }
  }

  lemma ListingCovers(s: set<string>)
    ensures Distinct(Listing(s)) && forall x :: x in s ==> x in Listing(s)
  {
    ListingDistinct(s);
  }

  /** Both views count every endpoint of the round once. */
  lemma ReportConservesEndpoints(ps: seq<Probe>, critical: seq<string>, at: string)
    ensures var services := ReportOf(ps, critical, at).services;
      SumOver(Listing(services.Keys), s => InReport(services, s)) == Endpoints(ps)
  {
    var services := ReportOf(ps, critical, at).services;
    var keys := Listing(services.Keys);
    ListingCovers(services.Keys);
    ServiceTotals(ps, keys);
    SumSame(keys, s => InReport(services, s), s => Total(ps, s));
  }

  lemma NodesConserveEndpoints(ps: seq<Probe>)
    ensures InNodes(NodesOf(ps)) == Endpoints(ps)
  {
    ListingCovers(HostsOf(ps));
    NodeTotals(ps, Listing(HostsOf(ps)));
    InNodesIs(ps, Listing(HostsOf(ps)));
  }

  lemma {:induction false} HealthyAll(nodes: seq<NodeHealth>)
    ensures Healthy(nodes) <= |nodes|
    ensures Healthy(nodes) == |nodes| <==> forall i :: 0 <= i < |nodes| ==> nodes[i].unreachable == []
  {
    if nodes != [] {
      HealthyAll(nodes[..|nodes| - 1]);
    }
  }

  lemma {:induction false} FailingServices(ps: seq<Probe>, host: string)
    ensures ServicesAt(ps, host, false) != [] <==> exists p :: p in ps && !Placeholder(p) && p.host == host && !p.ok
  {
    if ps != [] {
      var init, p := ps[..|ps| - 1], ps[|ps| - 1];
      FailingServices(init, host);
      assert ps == init + [p];
    }
  }

  predicate NoFailure(ps: seq<Probe>) {
    forall p :: p in ps && !Placeholder(p) ==> p.ok
  }

  lemma HealthyNodes(ps: seq<Probe>, hosts: seq<string>)
    requires forall h :: h in HostsOf(ps) ==> h in hosts
    ensures Healthy(NodesAt(ps, hosts)) == |hosts| <==> NoFailure(ps)
  {
    var nodes := NodesAt(ps, hosts);
    HealthyAll(nodes);
    forall i | 0 <= i < |hosts|
      ensures nodes[i].unreachable != [] <==> exists p :: p in ps && !Placeholder(p) && p.host == hosts[i] && !p.ok
    {
      FailingServices(ps, hosts[i]);
    }
    forall p | p in ps && !Placeholder(p) ensures p.host in hosts {
      assert p.host in HostsOf(ps);
    }
  }

  lemma NoServiceDown(ps: seq<Probe>)
    ensures NoFailure(ps) <==> forall s :: s in ServiceMap(ps) ==> ServiceMap(ps)[s].status != Down
  {
    forall p | p in ps && !Placeholder(p) ensures p.service in ServiceMap(ps) {}
  }

  /** All nodes are counted healthy exactly when no service is reported DOWN. */
  lemma AllHealthyIffNoServiceDown(ps: seq<Probe>, critical: seq<string>, at: string)
    ensures var services := ReportOf(ps, critical, at).services;
      Healthy(NodesOf(ps)) == |NodesOf(ps)| <==> forall s :: s in services ==> services[s].status != Down
  {
    ListingCovers(HostsOf(ps));
    HealthyNodes(ps, Listing(HostsOf(ps)));
    NoServiceDown(ps);
  }

  // ----- how the verdict moves -----

  function Rank(s: Status): nat {
    match s case Down => 0 case Degraded => 1 case Up => 2
  }

  /** An endpoint that recovers never lowers the verdict. */
  lemma RecoveryNeverLowers(ps: seq<Probe>, critical: seq<string>, i: nat)
    requires i < |ps|
    ensures Rank(GlobalStatus(ps[i := ps[i].(ok := true)], critical)) >= Rank(GlobalStatus(ps, critical))
  {
    var qs := ps[i := ps[i].(ok := true)];
    forall s ensures s in Services(ps) ==> s in Services(qs) {
      if s in Services(ps) {
        var p :| p in ps && !Placeholder(p) && p.service == s;
        var k :| 0 <= k < |ps| && ps[k] == p;
        assert qs[k] in qs && qs[k].service == s;
      }
    }
    forall s ensures Failing(qs, s) ==> Failing(ps, s) {
      if Failing(qs, s) {
        var p :| p in qs && !Placeholder(p) && p.service == s && !p.ok;
        var k :| 0 <= k < |qs| && qs[k] == p;
        assert ps[k] in ps;
      }
    }
    forall s ensures s in Services(qs) ==> s in Services(ps) {
      if s in Services(qs) {
        var p :| p in qs && !Placeholder(p) && p.service == s;
        var k :| 0 <= k < |qs| && qs[k] == p;
        assert ps[k] in ps && ps[k].service == s;
      }
    }
    assert NonCriticalBad(qs, critical) <= NonCriticalBad(ps, critical);
  }

  /** Declaring one more service critical never raises the verdict. */
  lemma MoreCriticalNeverRaises(ps: seq<Probe>, critical: seq<string>, s: string)
    ensures Rank(GlobalStatus(ps, critical + [s])) <= Rank(GlobalStatus(ps, critical))
  {
    var more := critical + [s];
    assert forall c :: c in more <==> c in critical || c == s;
    if GlobalStatus(ps, more) != Down {
      assert !CriticalBad(ps, s);
      assert NonCriticalBad(ps, more) == NonCriticalBad(ps, critical);
    }
  }

  function Without(ps: seq<Probe>, host: string): (qs: seq<Probe>)
    ensures forall p :: p in qs <==> p in ps && p.host != host
  {
    if ps == [] then []
    else
      var rest := Without(ps[1..], host);
      if ps[0].host == host then rest else [ps[0]] + rest
  }

  /** The service is observed, and only on this host. */
  predicate OnlyOn(ps: seq<Probe>, service: string, host: string) {
    service in Services(ps) && forall p :: p in ps && !Placeholder(p) && p.service == service ==> p.host == host
  }

  /** Auto-failover takes a node out of the map: that lowers the verdict exactly when the
      verdict was not DOWN and the node was the only one carrying some critical service. */
  lemma AbsorptionLowersExactly(ps: seq<Probe>, critical: seq<string>, host: string)
    ensures Rank(GlobalStatus(Without(ps, host), critical)) < Rank(GlobalStatus(ps, critical))
       <==> GlobalStatus(ps, critical) != Down && exists c :: c in critical && OnlyOn(ps, c, host)
  {
    var qs := Without(ps, host);
    assert NonCriticalBad(qs, critical) <= NonCriticalBad(ps, critical);
    if GlobalStatus(ps, critical) != Down {
      forall c | c in critical ensures CriticalBad(qs, c) <==> OnlyOn(ps, c, host) {
        assert !CriticalBad(ps, c);
        if !OnlyOn(ps, c, host) {
          var p :| p in ps && !Placeholder(p) && p.service == c && p.host != host;
          assert p in qs;
        }
      }
    }
  }

  // ----- the report and the node view, read off the probes -----

  predicate Seen(ps: seq<Probe>, service: string) {
    exists p :: p in ps && p.host != "" && p.service == service
  }

  predicate Broken(ps: seq<Probe>, service: string) {
    exists p :: p in ps && p.host != "" && p.service == service && !p.ok
  }

  /** The places in the round of a service's endpoints that answered as `ok` says. */
  function Places(ps: seq<Probe>, service: string, ok: bool): set<nat> {
    set i: nat | i < |ps| && ps[i].host != "" && ps[i].service == service && ps[i].ok == ok
  }

  lemma PlacesStep(ps: seq<Probe>, p: Probe, service: string, ok: bool)
    ensures Places(ps + [p], service, ok)
         == Places(ps, service, ok) + if p.host != "" && p.service == service && p.ok == ok then {|ps|} else {}
  {
    var all := ps + [p];
    assert forall i :: 0 <= i < |ps| ==> all[i] == ps[i];
    assert all[|ps|] == p;
  }

  lemma {:induction false} HostsPlaces(ps: seq<Probe>, service: string, ok: bool)
    ensures |Hosts(ps, service, ok)| == |Places(ps, service, ok)|
  {
    if ps != [] {
      var init, p := ps[..|ps| - 1], ps[|ps| - 1];
      HostsPlaces(init, service, ok);
      assert ps == init + [p];
      HostsStep(init, p, service, ok);
      PlacesStep(init, p, service, ok);
      assert |init| !in Places(init, service, ok);
    }
  }

  lemma SeenIs(ps: seq<Probe>, service: string)
    ensures service in Services(ps) <==> Seen(ps, service)
    ensures Failing(ps, service) <==> Broken(ps, service)
    ensures Broken(ps, service) ==> Seen(ps, service)
  {
  }

  /** DOWN iff some critical service has no endpoint or a failing one; UP iff, beyond that, no
      service at all has a failing one. */
  lemma StatusMeans(ps: seq<Probe>, critical: seq<string>, at: string)
    ensures var status := ReportOf(ps, critical, at).status;
      && (status == Down <==> exists c :: c in critical && (!Seen(ps, c) || Broken(ps, c)))
      && (status == Degraded <==> status != Down && exists s :: Broken(ps, s))
  {
    forall s ensures (CriticalBad(ps, s) <==> !Seen(ps, s) || Broken(ps, s)) && (Failing(ps, s) <==> Broken(ps, s)) {
      SeenIs(ps, s);
    }
    if GlobalStatus(ps, critical) != Down {
      forall s | Broken(ps, s) ensures s in NonCriticalBad(ps, critical) {
        SeenIs(ps, s);
      }
      forall s | s in NonCriticalBad(ps, critical) ensures Broken(ps, s) {}
    }
  }

  /** The reported services are those with an endpoint. Each is UP iff none of its endpoints
      fails, with the number that answered and the sorted hosts that failed. */
  lemma ServiceMeans(ps: seq<Probe>, critical: seq<string>, at: string, service: string)
    ensures var services := ReportOf(ps, critical, at).services;
      && (service in services <==> Seen(ps, service))
      && (service in services ==>
            var sh := services[service];
            && sh.status == (if Broken(ps, service) then Down else Up)
            && sh.reachable == |Places(ps, service, true)|
            && Sorted(sh.unreachable) && |sh.unreachable| == |Places(ps, service, false)|
            && forall h :: multiset(sh.unreachable)[h]
                 == if h == "" then 0 else multiset(ps)[Probe(service, h, false)])
  {
    SeenIs(ps, service);
    HostsPlaces(ps, service, true);
    HostsPlaces(ps, service, false);
    forall h ensures multiset(Sort(Hosts(ps, service, false)))[h]
        == if h == "" then 0 else multiset(ps)[Probe(service, h, false)] {
      HostsCount(ps, service, false, h);
    }
  }

  /** The first in the configured order without an endpoint or with a failing one. */
  predicate Culprit(ps: seq<Probe>, critical: seq<string>, i: nat) {
    && i < |critical| && (!Seen(ps, critical[i]) || Broken(ps, critical[i]))
    && forall j :: 0 <= j < i ==> Seen(ps, critical[j]) && !Broken(ps, critical[j])
  }

  predicate Counts(ps: seq<Probe>, service: string, bad: nat, total: nat) {
    bad == |Places(ps, service, false)| && total == bad + |Places(ps, service, true)|
  }

  /** What a reason says is so, and it is the reason for this status. */
  ghost predicate Explains(ps: seq<Probe>, critical: seq<string>, status: Status, reason: Reason) {
    match reason
    case AllReachable => status == Up
    case NotObserved(c) =>
      status == Down && !Seen(ps, c) && exists i: nat :: Culprit(ps, critical, i) && critical[i] == c
    case CriticalDown(c, bad, total) =>
      && status == Down && Seen(ps, c) && Counts(ps, c, bad, total)
      && exists i: nat :: Culprit(ps, critical, i) && critical[i] == c
    case NonCriticalDown(s, bad, total) =>
      && status == Degraded && s !in critical && Broken(ps, s) && Counts(ps, s, bad, total)
      && forall other :: Broken(ps, other) ==> Le(s, other)
  }

  /** The reason names the first critical culprit when DOWN, the least failing service with
      its numbers when DEGRADED, and nothing when UP. */
  lemma ReasonMeans(ps: seq<Probe>, critical: seq<string>, at: string)
    ensures var rep := ReportOf(ps, critical, at);
      && Explains(ps, critical, rep.status, rep.reason)
      && rep.critical == critical && rep.checkedAt == at
  {
    var i := FirstBad(ps, critical);
    StatusFromFirstBad(ps, critical);
    if i < |critical| {
      CulpritIs(ps, critical, i);
      CountsAre(ps, critical[i]);
      SeenIs(ps, critical[i]);
    } else if NonCriticalBad(ps, critical) != {} {
      LeastBroken(ps, critical);
    }
  }

  lemma CulpritIs(ps: seq<Probe>, critical: seq<string>, i: nat)
    requires i == FirstBad(ps, critical) && i < |critical|
    ensures Culprit(ps, critical, i)
  {
    SeenIs(ps, critical[i]);
    forall j | 0 <= j < i ensures Seen(ps, critical[j]) && !Broken(ps, critical[j]) {
      SeenIs(ps, critical[j]);
    }
  }

  lemma CountsAre(ps: seq<Probe>, service: string)
    ensures Counts(ps, service, Bad(ps, service), Total(ps, service))
  {
    HostsPlaces(ps, service, true);
    HostsPlaces(ps, service, false);
  }

  lemma LeastBroken(ps: seq<Probe>, critical: seq<string>)
    requires FirstBad(ps, critical) == |critical| && NonCriticalBad(ps, critical) != {}
    ensures var s := Least(NonCriticalBad(ps, critical));
      && s !in critical && Broken(ps, s) && Counts(ps, s, Bad(ps, s), Total(ps, s))
      && forall other :: Broken(ps, other) ==> Le(s, other)
  {
    var s := Least(NonCriticalBad(ps, critical));
    CountsAre(ps, s);
    SeenIs(ps, s);
    forall other | Broken(ps, other) ensures Le(s, other) {
      SeenIs(ps, other);
      NotCritical(ps, critical, other);
    }
  }

  lemma NotCritical(ps: seq<Probe>, critical: seq<string>, service: string)
    requires FirstBad(ps, critical) == |critical| && Failing(ps, service)
    ensures service !in critical
  {
    forall k | 0 <= k < |critical| ensures critical[k] != service {
      assert !CriticalBad(ps, critical[k]);
    }
  }

  /** The node view has one entry for each host of the round, in increasing order, and lists
      each endpoint of the host as often as the round holds it, by whether it answered. */
  lemma NodeMeans(ps: seq<Probe>, i: nat)
    requires i < |NodesOf(ps)|
    ensures var node := NodesOf(ps)[i];
      && node.host != "" && Sorted(node.reachable) && Sorted(node.unreachable)
      && (forall j :: i < j < |NodesOf(ps)| ==> Le(node.host, NodesOf(ps)[j].host) && node.host != NodesOf(ps)[j].host)
      && (forall s :: multiset(node.reachable)[s] == multiset(ps)[Probe(s, node.host, true)])
      && (forall s :: multiset(node.unreachable)[s] == multiset(ps)[Probe(s, node.host, false)])
  {
    var hosts := Listing(HostsOf(ps));
    ListingIn(HostsOf(ps));
    ListingDistinct(HostsOf(ps));
    forall s, ok ensures multiset(ServicesAt(ps, hosts[i], ok))[s] == multiset(ps)[Probe(s, hosts[i], ok)] {
      ServicesCount(ps, hosts[i], ok, s);
    }
  }

  lemma HostsMean(ps: seq<Probe>, host: string)
    ensures host in HostsOf(ps) <==> host != "" && exists p :: p in ps && p.host == host
    ensures (exists i :: 0 <= i < |NodesOf(ps)| && NodesOf(ps)[i].host == host) <==> host in HostsOf(ps)
  {
    var hosts := Listing(HostsOf(ps));
    ListingIn(HostsOf(ps));
    if host in HostsOf(ps) {
      assert host in hosts;
      var i :| 0 <= i < |hosts| && hosts[i] == host;
      assert NodesOf(ps)[i].host == host;
    }
  }

  function HealthyPlaces(nodes: seq<NodeHealth>): set<nat> {
    set i: nat | i < |nodes| && nodes[i].unreachable == []
  }

  lemma HealthyPlacesStep(nodes: seq<NodeHealth>, n: NodeHealth)
    ensures HealthyPlaces(nodes + [n]) == HealthyPlaces(nodes) + if n.unreachable == [] then {|nodes|} else {}
  {
    var all := nodes + [n];
    assert forall i :: 0 <= i < |nodes| ==> all[i] == nodes[i];
    assert all[|nodes|] == n;
  }

  /** The summary counts the nodes without a failing service. */
  lemma {:induction false} HealthyMeans(nodes: seq<NodeHealth>)
    ensures Healthy(nodes) == |HealthyPlaces(nodes)|
  {
    if nodes != [] {
      var init, n := nodes[..|nodes| - 1], nodes[|nodes| - 1];
      HealthyMeans(init);
      assert nodes == init + [n];
      HealthyPlacesStep(init, n);
      assert |init| !in HealthyPlaces(init);
    }
  }
}

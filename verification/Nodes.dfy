/** The per-host pivot of a probe round, and the difference between two host sets. */
module Nodes {
  import opened Ordering
  import opened Health

  datatype NodeHealth = NodeHealth(host: string, reachable: seq<string>, unreachable: seq<string>)

  function HostsOf(ps: seq<Probe>): set<string> {
    set p | p in ps && !Placeholder(p) :: p.host
  }

  /** Services whose endpoint on the host answered as `ok` says, in probe order. */
  function ServicesAt(ps: seq<Probe>, host: string, ok: bool): seq<string> {
    if ps == [] then []
    else
      var p := ps[|ps| - 1];
      ServicesAt(ps[..|ps| - 1], host, ok)
      + if !Placeholder(p) && p.host == host && p.ok == ok then [p.service] else []
  }

  function NodeOf(ps: seq<Probe>, host: string): NodeHealth {
    NodeHealth(host, Sort(ServicesAt(ps, host, true)), Sort(ServicesAt(ps, host, false)))
  }

  function NodesAt(ps: seq<Probe>, hosts: seq<string>): (r: seq<NodeHealth>)
    ensures |r| == |hosts| && forall i :: 0 <= i < |r| ==> r[i] == NodeOf(ps, hosts[i])
  {
    if hosts == [] then [] else NodesAt(ps, hosts[..|hosts| - 1]) + [NodeOf(ps, hosts[|hosts| - 1])]
  }

  ghost function NodesOf(ps: seq<Probe>): seq<NodeHealth> {
    NodesAt(ps, Listing(HostsOf(ps)))
  }

  datatype ByHost = ByHost(reachable: seq<string>, unreachable: seq<string>)

  predicate Pivots(byHost: map<string, ByHost>, ps: seq<Probe>) {
    && byHost.Keys == HostsOf(ps)
    && forall h :: h in byHost ==> byHost[h] == ByHost(ServicesAt(ps, h, true), ServicesAt(ps, h, false))
  }

  function File(a: ByHost, p: Probe): ByHost {
    if p.ok then a.(reachable := a.reachable + [p.service]) else a.(unreachable := a.unreachable + [p.service])
  }

  lemma HostsGrow(ps: seq<Probe>, p: Probe)
    ensures HostsOf(ps + [p]) == HostsOf(ps) + if Placeholder(p) then {} else {p.host}
  {
    assert forall q :: q in ps + [p] <==> q in ps || q == p;
    if !Placeholder(p) {
      assert p in ps + [p];
    }
  }

  lemma ServicesStep(ps: seq<Probe>, p: Probe, host: string, ok: bool)
    ensures ServicesAt(ps + [p], host, ok)
         == ServicesAt(ps, host, ok) + if !Placeholder(p) && p.host == host && p.ok == ok then [p.service] else []
  {
    assert (ps + [p])[..|ps|] == ps;
  }

  lemma AbsentHost(ps: seq<Probe>, host: string, ok: bool)
    ensures host !in HostsOf(ps) ==> ServicesAt(ps, host, ok) == []
  {
    if ps != [] {
      var init, p := ps[..|ps| - 1], ps[|ps| - 1];
      AbsentHost(init, host, ok);
      assert ps == init + [p];
      HostsGrow(init, p);
    }
  }

  lemma PivotStep(byHost: map<string, ByHost>, ps: seq<Probe>, p: Probe)
    requires Pivots(byHost, ps)
    ensures var a := if p.host in byHost then byHost[p.host] else ByHost([], []);
      Pivots(if Placeholder(p) then byHost else byHost[p.host := File(a, p)], ps + [p])
  {
    HostsGrow(ps, p);
    AbsentHost(ps, p.host, true);
    AbsentHost(ps, p.host, false);
    forall h, ok
      ensures ServicesAt(ps + [p], h, ok)
           == ServicesAt(ps, h, ok) + if !Placeholder(p) && p.host == h && p.ok == ok then [p.service] else []
    {
      ServicesStep(ps, p, h, ok);
    }
  }

  method Pivot(probes: seq<Probe>) returns (byHost: map<string, ByHost>)
    ensures Pivots(byHost, probes)
  {
    byHost := map[];
    for i := 0 to |probes|
      invariant Pivots(byHost, probes[..i])
    {
      var pr := probes[i];
      assert probes[..i + 1] == probes[..i] + [pr];
      PivotStep(byHost, probes[..i], pr);
      if pr.host == "" {
        continue;
      }
      var a := if pr.host in byHost then byHost[pr.host] else ByHost([], []);
      if pr.ok {
        a := a.(reachable := a.reachable + [pr.service]);
      } else {
        a := a.(unreachable := a.unreachable + [pr.service]);
      }
      byHost := byHost[pr.host := a];
    }
    assert probes[..|probes|] == probes;
  }

  /** The loop over the sorted hosts. */
  method Render(hosts: seq<string>, byHost: map<string, ByHost>, ghost probes: seq<Probe>)
    returns (out: seq<NodeHealth>)
    requires Pivots(byHost, probes) && forall k :: 0 <= k < |hosts| ==> hosts[k] in byHost
    ensures out == NodesAt(probes, hosts)
  {
    out := [];
    for i := 0 to |hosts|
      invariant |out| == i && forall k :: 0 <= k < i ==> out[k] == NodeOf(probes, hosts[k])
    {
      var a := byHost[hosts[i]];
      out := out + [NodeHealth(hosts[i], Sort(a.reachable), Sort(a.unreachable))];
    }
  }

  method ByNode(probes: seq<Probe>) returns (out: seq<NodeHealth>)
    ensures out == NodesOf(probes)
  {
    var byHost := Pivot(probes);
    var hosts := SortedKeys(byHost.Keys);
    ListingIn(byHost.Keys);
    out := Render(hosts, byHost, probes);
  }

  function Healthy(nodes: seq<NodeHealth>): nat {
    if nodes == [] then 0
    else Healthy(nodes[..|nodes| - 1]) + if nodes[|nodes| - 1].unreachable == [] then 1 else 0
  }

  method NodeSummary(nodes: seq<NodeHealth>) returns (healthy: nat, total: nat)
    ensures healthy == Healthy(nodes) && total == |nodes|
  {
    healthy := 0;
    for i := 0 to |nodes|
      invariant healthy == Healthy(nodes[..i])
    {
      assert nodes[..i + 1][..i] == nodes[..i];
      if |nodes[i].unreachable| == 0 {
        healthy := healthy + 1;
      }
    }
    assert nodes[..|nodes|] == nodes;
    total := |nodes|;
  }

  method HostSet(probes: seq<Probe>) returns (hosts: set<string>)
    ensures hosts == HostsOf(probes)
  {
    hosts := {};
    for i := 0 to |probes|
      invariant hosts == HostsOf(probes[..i])
    {
      assert probes[..i + 1] == probes[..i] + [probes[i]];
      HostsGrow(probes[..i], probes[i]);
      if probes[i].host != "" {
        hosts := hosts + {probes[i].host};
      }
    }
    assert probes[..|probes|] == probes;
  }

  /** The elements of `a` that are not in `b`, collected in an unknown order. */
  method Missing(a: set<string>, b: set<string>) returns (out: set<string>)
    ensures out == a - b
  {
    out := {};
    var left := a;
    while left != {}
      invariant left <= a && out == (a - left) - b
      decreases left
    {
      var h :| h in left;
      left := left - {h};
      if h !in b {
        out := out + {h};
      }
    }
  }

  method DiffHosts(prev: set<string>, cur: set<string>) returns (added: seq<string>, removed: seq<string>)
    ensures added == Listing(cur - prev) && removed == Listing(prev - cur)
  {
    var a := Missing(cur, prev);
    var r := Missing(prev, cur);
    added := SortedKeys(a);
    removed := SortedKeys(r);
  }

  function Elements(s: seq<string>): set<string> {
    set x | x in s
  }

  /** Applying a reported difference to the previous hosts gives the current ones; the two
      lists are strictly sorted and disjoint. */
  lemma DiffReplays(prev: set<string>, cur: set<string>)
    ensures var added, removed := Listing(cur - prev), Listing(prev - cur);
      && (prev + Elements(added)) - Elements(removed) == cur
      && Sorted(added) && Distinct(added) && Sorted(removed) && Distinct(removed)
      && Elements(added) !! Elements(removed)
  {
    ListingElements(cur - prev);
    ListingElements(prev - cur);
    SetsReplay(prev, cur, Elements(Listing(cur - prev)), Elements(Listing(prev - cur)));
  }

  lemma ListingElements(s: set<string>)
    ensures Elements(Listing(s)) == s && Distinct(Listing(s))
  {
    ListingDistinct(s);
  }

  lemma SetsReplay(prev: set<string>, cur: set<string>, added: set<string>, removed: set<string>)
    requires added == cur - prev && removed == prev - cur
    ensures (prev + added) - removed == cur && added !! removed
  {
  }
}

/** The event-driven caller of the actuator: one alarm notification, at most one call. */
module Handler {
  import opened Kube
  import opened Actuator
  import opened Convergence

  /** What event.Parse makes of a notification. */
  datatype Parsed = Malformed | Alarm(newState: string)

  datatype Handled = Done | ParseError | SwitchError(errs: seq<Failure>)

  /** One delivery, with the faults the API shows while it is handled. */
  datatype Delivery = Delivery(parsed: Parsed, faults: Faults, stamp: string)

  predicate Actionable(p: Parsed) {
    p.Alarm? && p.newState == "ALARM"
  }

  function Handling(cfg: Config, d: Delivery, s: Server): (Server, Handled) {
    if d.parsed.Malformed? then (s, ParseError)
    else if !Actionable(d.parsed) then (s, Done)
    else
      var c := SwitchCall(cfg, d.faults, d.stamp, s);
      (c.server, if c.errs != [] then SwitchError(c.errs) else Done)
  }

  class Handler {
    const act: K8sActuator

    constructor (act: K8sActuator)
      ensures this.act == act
    {
      this.act := act;
    }

    method Handle(parsed: Parsed, stamp: string) returns (r: Handled)
      modifies act.client`state
      ensures (act.client.state, r)
           == Handling(act.cfg, Delivery(parsed, act.client.faults, stamp), old(act.client.state))
    {
      if parsed.Malformed? {
        return ParseError;
      }
      if !Actionable(parsed) {
        return Done;
      }
      var switched, errs := act.Switch(stamp);
      if errs != [] {
        return SwitchError(errs);
      }
      return Done;
    }
  }

  /** The servers after each delivery of a sequence, first the one before any. */
  function Servers(cfg: Config, ds: seq<Delivery>, s: Server): (r: seq<Server>)
    ensures |r| == |ds| + 1 && r[0] == s
  {
    if ds == [] then [s] else [s] + Servers(cfg, ds[1..], Handling(cfg, ds[0], s).0)
  }

  /** How many deliveries of the sequence changed the cluster. */
  function Moves(cfg: Config, ds: seq<Delivery>, s: Server): nat {
    if ds == [] then 0
    else
      var t := Handling(cfg, ds[0], s).0;
      (if t != s then 1 else 0) + Moves(cfg, ds[1..], t)
  }

  /** However many notifications arrive, in any order and under any faults, the cluster is
      moved at most once for each target that was left; a converged cluster never moves. */
  lemma {:induction false} MovesAreBounded(cfg: Config, ds: seq<Delivery>, s: Server)
    ensures Moves(cfg, ds, s) + Left(cfg, Servers(cfg, ds, s)[|ds|]) <= Left(cfg, s)
    ensures Converged(cfg, s) ==> forall i :: 0 <= i <= |ds| ==> Servers(cfg, ds, s)[i] == s
  {
    if ds != [] {
      var t := Handling(cfg, ds[0], s).0;
      CallProgress(cfg, ds[0].faults, ds[0].stamp, s);
      if Converged(cfg, s) {
        Fixpoint(cfg, ds[0].faults, ds[0].stamp, s);
      }
      MovesAreBounded(cfg, ds[1..], t);
      forall i | 0 < i <= |ds| ensures Servers(cfg, ds, s)[i] == Servers(cfg, ds[1..], t)[i - 1] {}
    }
  }

  /** A delivery handled without error either asked for nothing and changed nothing, or
      left every target on the secondary. */
  lemma HandledMeans(cfg: Config, d: Delivery, s: Server)
    requires !cfg.dryRun && Handling(cfg, d, s).1 == Done
    ensures if Actionable(d.parsed) then Converged(cfg, Handling(cfg, d, s).0) else Handling(cfg, d, s).0 == s
  {
    if Actionable(d.parsed) {
      NilErrorConverges(cfg, d.faults, d.stamp, s);
    }
  }

  /** Only the state "ALARM" acts, and then exactly as one call does, errors returned; any
      other state, and a notification that cannot be parsed, touches nothing. */
  lemma OnlyAlarmActs(cfg: Config, f: Faults, stamp: string, s: Server, newState: string)
    ensures Handling(cfg, Delivery(Malformed, f, stamp), s) == (s, ParseError)
    ensures newState != "ALARM" ==> Handling(cfg, Delivery(Alarm(newState), f, stamp), s) == (s, Done)
    ensures newState == "ALARM" ==>
      var c, h := SwitchCall(cfg, f, stamp, s), Handling(cfg, Delivery(Alarm(newState), f, stamp), s);
      h.0 == c.server && (if c.errs == [] then h.1 == Done else h.1 == SwitchError(c.errs))
  {
    assert Actionable(Alarm(newState)) <==> newState == "ALARM";
  }
}

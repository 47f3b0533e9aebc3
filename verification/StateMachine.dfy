/** The anti-flap machine: point-in-time verdicts in, a switch decision out. */
module StateMachine {

  datatype Status = Up | Degraded | Down

  datatype MachineState = MachineState(inDown: bool, firstDownAt: int, switched: bool)

  function Initial(alreadySwitched: bool): MachineState {
    MachineState(false, 0, alreadySwitched)
  }

  function Observed(m: MachineState, status: Status, now: int): MachineState {
    if status != Down then m.(inDown := false)
    else if m.inDown then m
    else m.(inDown := true, firstDownAt := now)
  }

  predicate Due(delay: int, m: MachineState, status: Status, now: int) {
    status == Down && !m.switched && now - Observed(m, status, now).firstDownAt >= delay
  }

  function DownFor(m: MachineState, now: int): int {
    if m.inDown then now - m.firstDownAt else 0
  }

  datatype Verdict = Verdict(status: Status, switchRequired: bool, failbackRequired: bool)

  class Machine {
    const failoverDelay: int
    var firstDownAt: int
    var inDown: bool
    var switched: bool

    constructor (failoverDelay: int, alreadySwitched: bool)
      ensures this.failoverDelay == failoverDelay && Abs() == Initial(alreadySwitched)
    {
      this.failoverDelay := failoverDelay;
      firstDownAt, inDown, switched := 0, false, alreadySwitched;
    }

    function Abs(): MachineState
      reads this
    {
      MachineState(inDown, firstDownAt, switched)
    }

    method Observe(status: Status, now: int) returns (res: Verdict)
      modifies this
      ensures Abs() == Observed(old(Abs()), status, now)
      ensures res == Verdict(status, Due(failoverDelay, old(Abs()), status, now), false)
    {
      res := Verdict(status, false, false);
      if status != Down {
        inDown := false;
        return;
      }
      if !inDown {
        inDown := true;
        firstDownAt := now;
      }
      if !switched && now - firstDownAt >= failoverDelay {
        res := res.(switchRequired := true);
      }
    }

    method MarkSwitched()
      modifies this`switched
      ensures switched
    {
      switched := true;
    }

    method DownSeconds(now: int) returns (d: int)
      ensures d == DownFor(Abs(), now)
    {
      if !inDown {
        return 0;
      }
      return now - firstDownAt;
    }
  }

  /** One observation of the history, and the calls a machine receives. */
  datatype Obs = Obs(status: Status, at: int)

  datatype Input = Observe(obs: Obs) | Mark

  function After(m: MachineState, calls: seq<Input>): MachineState {
    if calls == [] then m
    else
      var p := After(m, calls[..|calls| - 1]);
      match calls[|calls| - 1]
      case Observe(o) => Observed(p, o.status, o.at)
      case Mark => p.(switched := true)
  }

  function History(calls: seq<Input>): seq<Obs> {
    if calls == [] then []
    else
      var h := History(calls[..|calls| - 1]);
      match calls[|calls| - 1]
      case Observe(o) => h + [o]
      case Mark => h
  }

  /** `a` opens the maximal unbroken DOWN suffix of the history. */
  predicate Window(h: seq<Obs>, a: int) {
    && 0 <= a < |h|
    && (forall k :: a <= k < |h| ==> h[k].status == Down)
    && (a == 0 || h[a - 1].status != Down)
  }

  ghost predicate Tracks(m: MachineState, h: seq<Obs>) {
    && (m.inDown <==> h != [] && h[|h| - 1].status == Down)
    && (m.inDown ==> exists a :: Window(h, a) && m.firstDownAt == h[a].at)
  }

  lemma WindowUnique(h: seq<Obs>, a: int, b: int)
    requires Window(h, a) && Window(h, b)
    ensures a == b
  {
  }

  lemma WindowGrows(h: seq<Obs>, o: Obs, a: int)
    requires o.status == Down
    ensures h != [] && h[|h| - 1].status == Down ==> (Window(h, a) <==> Window(h + [o], a))
    ensures !(h != [] && h[|h| - 1].status == Down) ==> (Window(h + [o], a) <==> a == |h|)
  {
    var g := h + [o];
    assert forall k :: 0 <= k < |h| ==> g[k] == h[k];
    assert g[|h|] == o;
    assert Window(g, a) && a < |h| ==> g[|h| - 1].status == Down;
    assert Window(g, a) && a < |h| ==> Window(h, a);
    assert Window(g, |h|) <==> h == [] || h[|h| - 1].status != Down;
  }

  lemma ObserveTracks(m: MachineState, h: seq<Obs>, o: Obs)
    requires Tracks(m, h)
    ensures Tracks(Observed(m, o.status, o.at), h + [o])
  {
    var g := h + [o];
    if o.status == Down {
      if m.inDown {
        var a :| Window(h, a) && m.firstDownAt == h[a].at;
        WindowGrows(h, o, a);
        assert g[a] == h[a];
      } else {
        WindowGrows(h, o, |h|);
      }
    }
  }

  /** A machine that asks for a switch stands at the end of a window that is old enough. */
  lemma DueHasWindow(delay: int, m: MachineState, h: seq<Obs>, o: Obs)
    requires Tracks(m, h) && Due(delay, m, o.status, o.at)
    ensures exists a :: Window(h + [o], a) && o.at - (h + [o])[a].at >= delay
  {
    ObserveTracks(m, h, o);
    assert (h + [o])[|h|] == o;
    var a :| Window(h + [o], a) && Observed(m, o.status, o.at).firstDownAt == (h + [o])[a].at;
  }

  lemma {:induction false} RunTracks(seed: bool, calls: seq<Input>)
    ensures Tracks(After(Initial(seed), calls), History(calls))
  {
    if calls != [] {
      var init, last := calls[..|calls| - 1], calls[|calls| - 1];
      RunTracks(seed, init);
      CallTracks(After(Initial(seed), init), History(init), last);
    }
  }

  lemma CallTracks(m: MachineState, h: seq<Obs>, call: Input)
    requires Tracks(m, h)
    ensures call.Observe? ==> Tracks(Observed(m, call.obs.status, call.obs.at), h + [call.obs])
    ensures call.Mark? ==> Tracks(m.(switched := true), h)
  {
    if call.Observe? {
      ObserveTracks(m, h, call.obs);
    }
  }

  /** A latch comes from the boot or from a Mark, and stays. */
  lemma {:induction false} RunLatched(seed: bool, calls: seq<Input>)
    ensures After(Initial(seed), calls).switched <==> seed || Mark in calls
  {
    if calls != [] {
      var init, last := calls[..|calls| - 1], calls[|calls| - 1];
      RunLatched(seed, init);
      assert calls == init + [last];
    }
  }

  /** After any calls, an observation asks for a switch exactly when nothing has latched and
      the DOWN window it belongs to opened at least the delay ago. */
  lemma DecidesOnTrace(delay: int, seed: bool, calls: seq<Input>, o: Obs)
    ensures Due(delay, After(Initial(seed), calls), o.status, o.at)
       <==> && !seed && Mark !in calls
            && exists a :: Window(History(calls) + [o], a) && o.at - (History(calls) + [o])[a].at >= delay
  {
    var m, h := After(Initial(seed), calls), History(calls);
    RunTracks(seed, calls);
    RunLatched(seed, calls);
    ObserveTracks(m, h, o);
    var g := h + [o];
    assert g[|h|] == o;
    if o.status == Down {
      var a :| Window(g, a) && Observed(m, o.status, o.at).firstDownAt == g[a].at;
      forall b | Window(g, b) ensures b == a { WindowUnique(g, a, b); }
    }
  }

  /** After any calls the down time runs from the first verdict of the unbroken DOWN suffix
      of the history, and is 0 exactly when there is no such suffix or it opens now. */
  lemma DownSecondsOnTrace(seed: bool, calls: seq<Input>, now: int)
    ensures var h, d := History(calls), DownFor(After(Initial(seed), calls), now);
      && (forall a :: Window(h, a) ==> d == now - h[a].at)
      && (d == 0 <==> forall a :: Window(h, a) ==> h[a].at == now)
  {
    var m, h := After(Initial(seed), calls), History(calls);
    RunTracks(seed, calls);
    if m.inDown {
      var a :| Window(h, a) && m.firstDownAt == h[a].at;
      forall b | Window(h, b) ensures b == a { WindowUnique(h, a, b); }
    } else {
      forall b ensures !Window(h, b) {}
    }
  }
}

/** The whole program as a state machine: events applied one after another from
    the start state, and the invariant every reachable state keeps. */
module Simulation {
  import opened Model
  import LoadUpdater
  import Matcher
  import Input

  /** The server in slot `i`: placed at that slot, unit capacity, load in
      [0, 1], and a height that is either load times capacity or, for a server
      no load has touched yet, the fresh height. */
  predicate ServerOk(srv: Server, i: nat)
  {
    && srv.x == SlotX(i)
    && srv.maxCapacity == InitialMaxCapacity
    && 0.0 <= srv.load <= 1.0
    && (srv.height == srv.load * srv.maxCapacity || (srv.load == 0.0 && srv.height == FreshHeight))
  }

  predicate FleetOk(servers: seq<Server>)
  {
    && 1 <= |servers| <= MaxServers
    && forall i :: 0 <= i < |servers| ==> ServerOk(servers[i], i)
  }

  /** Every client sits on the bottom row, inside the band, with the nominal load. */
  predicate ClientOk(c: Client)
  {
    && c.y == ClientY
    && c.load == ClientLoad
    && Input.ClientBandLeft <= c.x <= Input.ClientBandLeft + Input.ClientBandWidth
  }

  predicate Inv(s: State)
  {
    && FleetOk(s.servers)
    && forall j :: 0 <= j < |s.clients| ==> ClientOk(s.clients[j])
  }

  predicate ValidEvents(evs: seq<Input.Event>, randMax: nat)
  {
    forall i :: 0 <= i < |evs| ==> Input.ValidEvent(evs[i], randMax)
  }

  /** An Escape key press. */
  predicate IsEscape(e: Input.Event)
  {
    e.KeyPress? && e.key == Input.EscapeKey
  }

  /** Handle the events in order; the run stops at the first Escape. Servers
      are never removed. */
  function Run(s: State, evs: seq<Input.Event>, randMax: nat): (r: Input.Status)
    requires 0 < randMax && ValidEvents(evs, randMax)
    ensures r.Exited? <==> exists i :: 0 <= i < |evs| && IsEscape(evs[i])
    ensures r.Running? ==> |s.servers| <= |r.state.servers|
    decreases |evs|
  {
    if evs == [] then Input.Running(s)
    else
      match Input.Step(s, evs[0], randMax)
      case Exited => Input.Exited
      case Running(s') => Run(s', evs[1..], randMax)
  }

  /** The start state satisfies the invariant. */
  lemma InitOk()
    ensures Inv(Init())
  {
  }

  /** A non-negative increment keeps a well-formed fleet well-formed: the
      target's height is recomputed, and an appended server lands in its slot. */
  lemma IncreaseLoadKeepsFleet(servers: seq<Server>, k: nat, amount: real)
    requires FleetOk(servers) && k < |servers|
    requires 0.0 <= amount
    ensures FleetOk(LoadUpdater.IncreaseLoad(servers, k, amount))
  {
  }

  /** Every event handled keeps the invariant. */
  lemma StepKeepsInv(s: State, e: Input.Event, randMax: nat)
    requires Inv(s)
    requires 0 < randMax && Input.ValidEvent(e, randMax)
    ensures Input.Step(s, e, randMax).Running? ==> Inv(Input.Step(s, e, randMax).state)
  {
    match e
    case KeyPress(key, draw) =>
      if key == Input.AddClientKey {
        var r := Input.AddClient(s, draw, randMax);
        forall j | 0 <= j < |r.clients|
          ensures ClientOk(r.clients[j])
        {
          if j < |s.clients| {
            assert r.clients[j] == r.clients[..|s.clients|][j];
          }
        }
      }
    case MouseMotion(px, py) =>
    case MouseButton(button, state, px, py) =>
      if button == Input.LeftButton && state == Input.Up {
        var k := Matcher.Nearest(s.servers, Input.NdcX(px), Input.NdcY(py));
        if k != -1 {
          IncreaseLoadKeepsFleet(s.servers, k, LoadStep);
        }
      }
  }

  /** Every state a run reaches keeps the invariant. */
  lemma {:induction false} RunKeepsInv(s: State, evs: seq<Input.Event>, randMax: nat)
    requires Inv(s)
    requires 0 < randMax && ValidEvents(evs, randMax)
    ensures Run(s, evs, randMax).Running? ==> Inv(Run(s, evs, randMax).state)
    decreases |evs|
  {
    if evs != [] {
      StepKeepsInv(s, evs[0], randMax);
      var st := Input.Step(s, evs[0], randMax);
      if st.Running? {
        assert ValidEvents(evs[1..], randMax) by {
          forall i | 0 <= i < |evs[1..]|
            ensures Input.ValidEvent(evs[1..][i], randMax)
          {
            assert evs[1..][i] == evs[i + 1];
          }
        }
        RunKeepsInv(st.state, evs[1..], randMax);
      }
    }
  }

  /** Whatever the user does, the fleet has between one and five servers, each
      carrying a load in [0, 1], and server i sits at x = i * 0.2 - 0.5. */
  lemma ReachableFleet(evs: seq<Input.Event>, randMax: nat)
    requires 0 < randMax && ValidEvents(evs, randMax)
    ensures var r := Run(Init(), evs, randMax);
      r.Running? ==>
        && 1 <= |r.state.servers| <= MaxServers
        && forall i :: 0 <= i < |r.state.servers| ==>
             0.0 <= r.state.servers[i].load <= 1.0 && r.state.servers[i].x == SlotX(i)
  {
    InitOk();
    RunKeepsInv(Init(), evs, randMax);
  }

  /** The height rule does not hold of every server: once ten bumps have
      saturated the initial server, the server they appended has no load yet a
      visible height, so the invariant has to allow that case. */
  lemma FreshServerHeightExempt()
    ensures var r := LoadUpdater.BumpTimes([FreshServer(0)], 0, LoadStep, 10);
      |r| == 2 && r[1].height != r[1].load * r[1].maxCapacity
  {
    LoadUpdater.InitialServerSaturation();
  }

  /** Pressing 'c' N times adds exactly N clients, each on the bottom row inside
      the band, and leaves the fleet unchanged. */
  lemma {:induction false} AddClientPresses(s: State, evs: seq<Input.Event>, randMax: nat)
    requires 0 < randMax && ValidEvents(evs, randMax)
    requires forall i :: 0 <= i < |evs| ==> evs[i].KeyPress? && evs[i].key == Input.AddClientKey
    ensures var r := Run(s, evs, randMax);
      && r.Running?
      && |r.state.clients| == |s.clients| + |evs|
      && r.state.clients[..|s.clients|] == s.clients
      && (forall j :: |s.clients| <= j < |r.state.clients| ==> ClientOk(r.state.clients[j]))
      && r.state.servers == s.servers
    decreases |evs|
  {
    if evs != [] {
      var s1 := Input.AddClient(s, evs[0].draw, randMax);
      assert Input.Step(s, evs[0], randMax) == Input.Running(s1);
      var rest := evs[1..];
      assert ValidEvents(rest, randMax) by {
        forall i | 0 <= i < |rest|
          ensures Input.ValidEvent(rest[i], randMax)
        {
          assert rest[i] == evs[i + 1];
        }
      }
      assert forall i :: 0 <= i < |rest| ==> rest[i].KeyPress? && rest[i].key == Input.AddClientKey by {
        forall i | 0 <= i < |rest|
          ensures rest[i].KeyPress? && rest[i].key == Input.AddClientKey
        {
          assert rest[i] == evs[i + 1];
        }
      }
      AddClientPresses(s1, rest, randMax);
      var r := Run(s1, rest, randMax);
      assert r == Run(s, evs, randMax);
      var n := |s.clients|;
      assert r.state.clients[..n + 1] == s1.clients;
      assert r.state.clients[..n] == r.state.clients[..n + 1][..n];
      assert ClientOk(r.state.clients[n]) by {
        assert r.state.clients[n] == s1.clients[n];
      }
    }
  }
}

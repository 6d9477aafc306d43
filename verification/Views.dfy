/**
 The session loops of `Tunnel` seen as the machines that model a whole host tunnel and a whole client
 tunnel: every run of the one is a run of the other, with the same maps.
 */
module Views {
  import opened Common
  import opened Tunnel
  import opened Listener
  import HostRuns
  import ClientTunnels

  // ---- host -------------------------------------------------------------------------------

  /** The host's newest session, as its registry entry. */
  function Newest(h: Host): HostRuns.LocalConnection
    requires h.sessions != []
  {
    var a := Last(h.sessions).addr;
    HostRuns.LocalConnection(a, Unspecified(a), |h.sessions| - 1)
  }

  function Held(h: Host): Option<HostRuns.LocalConnection> {
    if h.sessions != [] && (h.phase.HRegistered? || h.phase.HForwarding? || h.phase == Failed(true)) then Some(Newest(h))
    else None
  }

  function LoopPhase(h: Host, peer: HostRuns.PeerId): HostRuns.LoopPhase {
    match h.phase
    case HRegistered(_) => if h.sessions == [] then HostRuns.Accepting else HostRuns.Registered(peer, Newest(h))
    case HForwarding(_) => if h.sessions == [] then HostRuns.Accepting else HostRuns.Forwarding(peer, Newest(h))
    case Failed(_) => HostRuns.Accepting
    case _ => HostRuns.Serving(peer)
  }

  /** What the accept loop's run looks like while `peer` is the one peer that connected. */
  function HostView(h: Host, peer: HostRuns.PeerId): HostRuns.RunView {
    var n := |h.sessions|;
    HostRuns.RunView(map[peer := Held(h)], LoopPhase(h, peer), map[peer := 1],
                     n, if Held(h).Some? then n - 1 else n, if h.phase == Failed(true) then 1 else 0)
  }

  /** The accept loop's event that a step of the session loop is, if it is one. */
  function HostEvent(h: Host, a: HostAct, codec: Codec): Option<HostRuns.LoopEvent> {
    match a
    case HRegister => if h.phase.Requested? then Some(HostRuns.Requests(h.phase.addr, |h.sessions|)) else None
    case HStartPair(_) => Some(HostRuns.Starts(true))
    case HJoin => Some(HostRuns.Ends)
    case HFail => Some(if h.phase.HRegistered? then HostRuns.Starts(false) else HostRuns.Breaks)
    case Decode => if h.phase.Receiving? && codec.decode(h.phase.buf).None? then Some(HostRuns.Breaks) else None
    case _ => None
  }

  /** From view to view by the event, or none. */
  predicate Follows(v: HostRuns.RunView, e: Option<HostRuns.LoopEvent>, v': HostRuns.RunView) {
    if e.None? then v' == v else HostRuns.Possible(v, e.value) && v' == HostRuns.Happens(v, e.value)
  }

  lemma RegisterFollows(h: Host, n: nat, packets: seq<Packet>, codec: Codec, peer: HostRuns.PeerId)
    requires HostRegistry(h) && HostCan(h, HRegister, n, packets)
    ensures Follows(HostView(h, peer), HostEvent(h, HRegister, codec), HostView(HostStep(h, HRegister, n, packets, codec), peer))
  {
    var h' := HostStep(h, HRegister, n, packets, codec);
    assert Last(h'.sessions).addr == h.phase.addr;
    assert map[peer := Held(h)][peer := Held(h')] == map[peer := Held(h')];
  }

  /** A step that leaves the host's list of sessions alone. */
  lemma OtherFollows(h: Host, a: HostAct, n: nat, packets: seq<Packet>, codec: Codec, peer: HostRuns.PeerId)
    requires HostRegistry(h) && HostCan(h, a, n, packets) && !a.HRegister?
    ensures Follows(HostView(h, peer), HostEvent(h, a, codec), HostView(HostStep(h, a, n, packets, codec), peer))
  {
    var h' := HostStep(h, a, n, packets, codec);
    assert |h'.sessions| == |h.sessions| && (h.sessions != [] ==> Last(h'.sessions).addr == Last(h.sessions).addr);
    assert h.sessions != [] ==> Newest(h') == Newest(h);
    assert map[peer := Held(h)][peer := Held(h')] == map[peer := Held(h')];
  }

  lemma HostActFollows(h: Host, a: HostAct, n: nat, packets: seq<Packet>, codec: Codec, peer: HostRuns.PeerId)
    requires HostRegistry(h) && HostCan(h, a, n, packets)
    ensures Follows(HostView(h, peer), HostEvent(h, a, codec), HostView(HostStep(h, a, n, packets, codec), peer))
  {
    if a.HRegister? {
      RegisterFollows(h, n, packets, codec, peer);
    } else {
      OtherFollows(h, a, n, packets, codec, peer);
    }
  }

  /** The registry is the map that the view holds for the peer. */
  lemma RegistryIsHeld(h: Host)
    requires HostRegistry(h)
    ensures h.registry == HostRuns.Entries(Held(h))
  {
  }

  lemma HostStepFollows(s: System, t: Step, codec: Codec, peer: HostRuns.PeerId)
    requires Registries(s) && Can(s, t)
    ensures Follows(HostView(s.host, peer), if t.ByHost? then HostEvent(s.host, t.hact, codec) else None,
                    HostView(Next(s, t, codec).host, peer))
  {
    if t.ByHost? {
      HostActFollows(s.host, t.hact, s.client.streams, s.packets, codec, peer);
    }
  }

  /** The accept loop's events of a run. */
  ghost function HostEvents(s: System, ts: seq<Step>, codec: Codec): seq<HostRuns.LoopEvent>
    requires Valid(s, ts, codec)
    decreases |ts|
  {
    if ts == [] then []
    else
      var e := if ts[0].ByHost? then HostEvent(s.host, ts[0].hact, codec) else None;
      (if e.Some? then [e.value] else []) + HostEvents(Next(s, ts[0], codec), ts[1..], codec)
  }

  lemma {:induction false} HostRunFollows(s: System, ts: seq<Step>, codec: Codec, peer: HostRuns.PeerId)
    requires Registries(s) && Valid(s, ts, codec)
    ensures HostRuns.ValidLoop(HostView(s.host, peer), HostEvents(s, ts, codec))
    ensures HostRuns.LoopAfter(HostView(s.host, peer), HostEvents(s, ts, codec)) == HostView(After(s, ts, codec).host, peer)
    decreases |ts|
  {
    if ts != [] {
      var s' := Next(s, ts[0], codec);
      StepRegistries(s, ts[0], codec);
      HostStepFollows(s, ts[0], codec, peer);
      HostRunFollows(s', ts[1..], codec, peer);
      var e := if ts[0].ByHost? then HostEvent(s.host, ts[0].hact, codec) else None;
      if e.Some? {
        assert HostEvents(s, ts, codec)[1..] == HostEvents(s', ts[1..], codec);
      } else {
        assert HostEvents(s, ts, codec) == HostEvents(s', ts[1..], codec);
      }
    }
  }

  /**
   Every run of client and host is, on the host, a run of the accept loop after that one peer has
   connected, and the registry is the map that this run holds for the peer.
   */
  lemma HostIsAcceptLoop(cp: Protocol, hp: Protocol, ts: seq<Step>, codec: Codec, peer: HostRuns.PeerId)
    requires Valid(Initial(cp, hp), ts, codec)
    ensures var es := [HostRuns.Connects(peer)] + HostEvents(Initial(cp, hp), ts, codec);
            var h := After(Initial(cp, hp), ts, codec).host;
            && HostRuns.ValidLoop(HostRuns.EmptyRun, es)
            && HostRuns.LoopAfter(HostRuns.EmptyRun, es) == HostView(h, peer)
            && h.registry == HostRuns.Entries(HostView(h, peer).held[peer])
  {
    var s := Initial(cp, hp);
    HostRunFollows(s, ts, codec, peer);
    RunRegistries(s, ts, codec);
    RegistryIsHeld(After(s, ts, codec).host);
    assert HostRuns.Happens(HostRuns.EmptyRun, HostRuns.Connects(peer)) == HostView(s.host, peer);
    assert ([HostRuns.Connects(peer)] + HostEvents(s, ts, codec))[1..] == HostEvents(s, ts, codec);
  }

  // ---- client -----------------------------------------------------------------------------

  function ListenerView(c: Client): ClientTunnels.ListenerPhase {
    match c.phase
    case Registered(a) => ClientTunnels.Forwarding(a, if c.sessions == [] then 0 else |c.sessions| - 1)
    case Forwarding(a) => ClientTunnels.Forwarding(a, if c.sessions == [] then 0 else |c.sessions| - 1)
    case Exited => ClientTunnels.Exited
    case _ => ClientTunnels.Listening
  }

  /** The listener's event that a step of the client is, if it is one. */
  function ListenerEvent(c: Client, a: ClientAct): Option<ClientTunnels.ListenerEvent> {
    match a
    case Register =>
      if c.phase.Sent? && c.sessions != [] then Some(ClientTunnels.Begins(c.phase.addr, |c.sessions| - 1)) else None
    case Join => Some(ClientTunnels.Ends)
    case Fail => Some(ClientTunnels.Exits)
    case CheckStop => if c.watch.Ready(c.seen) && c.watch.value then Some(ClientTunnels.Exits) else None
    case _ => None
  }

  predicate Listens(v: ClientTunnels.ListenerPhase, e: Option<ClientTunnels.ListenerEvent>, v': ClientTunnels.ListenerPhase) {
    if e.None? then v' == v else ClientTunnels.ListenerCan(v, e.value) && v' == ClientTunnels.ListenerNext(v, e.value)
  }

  lemma ClientActFollows(c: Client, a: ClientAct)
    requires ClientRegistry(c) && ClientCan(c, a)
    ensures Listens(ListenerView(c), ListenerEvent(c, a), ListenerView(ClientStep(c, a)))
    ensures c.registry == ClientTunnels.Entries(ListenerView(c))
  {
  }

  lemma ClientStepFollows(s: System, t: Step, codec: Codec)
    requires Registries(s) && Can(s, t)
    ensures Listens(ListenerView(s.client), if t.ByClient? then ListenerEvent(s.client, t.cact) else None,
                    ListenerView(Next(s, t, codec).client))
  {
    if t.ByClient? {
      ClientActFollows(s.client, t.cact);
    }
  }

  /** The listener's events of a run, as a client tunnel's task makes them. */
  ghost function ClientEvents(s: System, ts: seq<Step>, codec: Codec): seq<ClientTunnels.ClientEvent>
    requires Valid(s, ts, codec)
    decreases |ts|
  {
    if ts == [] then []
    else
      var e := if ts[0].ByClient? then ListenerEvent(s.client, ts[0].cact) else None;
      (if e.Some? then [ClientTunnels.Task(e.value)] else []) + ClientEvents(Next(s, ts[0], codec), ts[1..], codec)
  }

  lemma {:induction false} ClientRunFollows(s: System, ts: seq<Step>, codec: Codec)
    requires Registries(s) && Valid(s, ts, codec)
    ensures var life := ClientTunnels.Running(ListenerView(s.client));
            ClientTunnels.ValidLife(life, ClientEvents(s, ts, codec))
            && ClientTunnels.LifeAfter(life, ClientEvents(s, ts, codec)) ==
               ClientTunnels.Running(ListenerView(After(s, ts, codec).client))
    decreases |ts|
  {
    if ts != [] {
      var s' := Next(s, ts[0], codec);
      StepRegistries(s, ts[0], codec);
      ClientStepFollows(s, ts[0], codec);
      ClientRunFollows(s', ts[1..], codec);
      var e := if ts[0].ByClient? then ListenerEvent(s.client, ts[0].cact) else None;
      if e.Some? {
        assert ClientEvents(s, ts, codec)[1..] == ClientEvents(s', ts[1..], codec);
      } else {
        assert ClientEvents(s, ts, codec) == ClientEvents(s', ts[1..], codec);
      }
    }
  }

  /** Every run of client and host is, on the client, a life of the tunnel after one call of connect. */
  lemma ClientIsListener(cp: Protocol, hp: Protocol, ts: seq<Step>, codec: Codec)
    requires Valid(Initial(cp, hp), ts, codec)
    ensures var es := [ClientTunnels.ConnectCalled(true, true)] + ClientEvents(Initial(cp, hp), ts, codec);
            var c := After(Initial(cp, hp), ts, codec).client;
            && ClientTunnels.ValidLife(ClientTunnels.Idle, es)
            && ClientTunnels.LifeAfter(ClientTunnels.Idle, es) == ClientTunnels.Running(ListenerView(c))
            && c.registry == ClientTunnels.Entries(ListenerView(c))
  {
    var s := Initial(cp, hp);
    ClientRunFollows(s, ts, codec);
    RunRegistries(s, ts, codec);
    var es := [ClientTunnels.ConnectCalled(true, true)] + ClientEvents(s, ts, codec);
    assert es[1..] == ClientEvents(s, ts, codec);
  }
}
